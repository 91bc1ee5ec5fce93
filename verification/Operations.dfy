/** The atomic meaning of each repository operation on the database. A database transaction
    either commits all of its writes or, when it throws, none. */
module Operations {
  import opened Rows
  import JsNumber
  import LexOrder

  ghost predicate LedgerKeyUsed(ledger: seq<LedgerEntry>, key: string) {
    exists i :: 0 <= i < |ledger| && ledger[i].key == key
  }

  // ---- Lookups. `IsX` says what a query may return; `FindX` is one such answer. ----

  predicate Owns(wallets: map<Id, Wallet>, walletId: Id, userId: Id, currency: string) {
    walletId in wallets && wallets[walletId].userId == userId && wallets[walletId].currency == currency
  }

  ghost function FindWallet(db: Db, userId: Id, currency: string): (r: Option<Id>)
    ensures r.Some? ==> Owns(db.wallets, r.value, userId, currency)
    ensures r.None? ==> forall id :: !Owns(db.wallets, id, userId, currency)
  {
    if exists id :: Owns(db.wallets, id, userId, currency) then
      var id :| Owns(db.wallets, id, userId, currency); Some(id)
    else None
  }

  ghost function FindByTag(db: Db, tag: string): (r: Option<Id>)
    ensures r.Some? ==> r.value in db.wallets && db.wallets[r.value].tag == tag
    ensures r.None? ==> forall id :: id in db.wallets ==> db.wallets[id].tag != tag
  {
    if exists id :: id in db.wallets && db.wallets[id].tag == tag then
      var id :| id in db.wallets && db.wallets[id].tag == tag; Some(id)
    else None
  }

  ghost predicate TransactionKeyUsed(db: Db, key: string) {
    exists id :: id in db.transactions && db.transactions[id].key == key
  }

  ghost predicate TransferKeyUsed(db: Db, key: string) {
    exists id :: id in db.transfers && db.transfers[id].key == key
  }

  predicate HasRef(db: Db, id: Id, providerRef: string) {
    id in db.transactions && db.transactions[id].providerRef == Some(providerRef)
  }

  /** `provider_ref` has no unique index, so the query may return any matching row. */
  ghost predicate IsByRef(db: Db, providerRef: string, r: Option<Id>) {
    match r
    case Some(id) => HasRef(db, id, providerRef)
    case None => forall id :: !HasRef(db, id, providerRef)
  }

  // ---- Inserts and single-statement updates ----

  ghost function InsertWallet(db: Db, id: Id, userId: Id, currency: string, tag: string): Result<Db> {
    if id in db.wallets
      || (exists w :: Owns(db.wallets, w, userId, currency))
      || (exists w :: w in db.wallets && db.wallets[w].tag == tag)
    then Err(DuplicateKey)
    else Ok(db.(wallets := db.wallets[id := Wallet(userId, currency, 0, tag)]))
  }

  ghost function CreateTransaction(db: Db, id: Id, userId: Id, amount: int, currency: string, key: string): Result<Db> {
    if id in db.transactions || TransactionKeyUsed(db, key) then Err(DuplicateKey)
    else Ok(db.(transactions :=
        db.transactions[id := Transaction(userId, amount, currency, key, Pending, None, None)]))
  }

  /** An update by id changes nothing, and reports nothing, when the row is absent. */
  function SetProviderRef(db: Db, id: Id, providerRef: string): Db {
    if id !in db.transactions then db
    else db.(transactions :=
        db.transactions[id := db.transactions[id].(providerRef := Some(providerRef))])
  }

  function FailTransaction(db: Db, id: Id, reason: string): Db {
    if id !in db.transactions then db
    else db.(transactions :=
        db.transactions[id := db.transactions[id].(status := Failed, failureReason := Some(reason))])
  }

  function CompleteTransaction(transactions: map<Id, Transaction>, id: Id): map<Id, Transaction> {
    if id in transactions then transactions[id := transactions[id].(status := Completed)]
    else transactions
  }

  function NewTransfer(fromUserId: Id, toUserId: Id, amount: int, currency: string, key: string): Transfer {
    Transfer(fromUserId, toUserId, amount, currency, key, Pending)
  }

  ghost function CreateTransfer(db: Db, id: Id, row: Transfer): Result<Db> {
    if id in db.transfers || TransferKeyUsed(db, row.key) then Err(DuplicateKey)
    else Ok(db.(transfers := db.transfers[id := row]))
  }

  function CompleteTransfer(transfers: map<Id, Transfer>, id: Id): map<Id, Transfer> {
    if id in transfers then transfers[id := transfers[id].(status := Completed)]
    else transfers
  }

  // ---- settleTransaction ----

  function SettlementEntry(db: Db, walletId: Id, tx: Transaction, kind: EntryKind, newBalance: int): LedgerEntry
    requires walletId in db.wallets
  {
    LedgerEntry(walletId, kind, tx.amount, db.wallets[walletId].currency, newBalance, tx.key)
  }

  /** The commit of a settlement that read `balanceRead` from the locked wallet row. */
  ghost function CommitSettlement(
      db: Db, walletId: Id, txId: Id, tx: Transaction, kind: EntryKind, change: int,
      event: OutboxEvent, balanceRead: int): Result<Db>
    requires walletId in db.wallets
  {
    var newBalance := JsNumber.Add(JsNumber.Number(balanceRead), change);
    if newBalance < 0 then Err(InsufficientBalance)
    else if LedgerKeyUsed(db.ledger, tx.key) then Err(DuplicateKey)
    else Ok(Db(
        db.wallets[walletId := db.wallets[walletId].(balance := newBalance)],
        CompleteTransaction(db.transactions, txId),
        db.transfers,
        db.ledger + [SettlementEntry(db, walletId, tx, kind, newBalance)],
        db.outbox + [event]))
  }

  /** `settleTransaction` as one indivisible operation. */
  ghost function SettleTransaction(
      db: Db, walletId: Id, txId: Id, tx: Transaction, kind: EntryKind, change: int,
      event: OutboxEvent): Result<Db>
  {
    if walletId !in db.wallets then Err(MissingRow)
    else CommitSettlement(db, walletId, txId, tx, kind, change, event, db.wallets[walletId].balance)
  }

  function DepositEvent(walletId: Id, tx: Transaction): OutboxEvent {
    OutboxEvent(DEPOSIT_SUCCEEDED, walletId,
                DepositPayload(tx.userId, walletId, JsNumber.Number(tx.amount), tx.currency))
  }

  // ---- executeTransfer ----

  /** The order in which `executeTransfer` locks its two wallets. */
  function LockOrder(fromId: Id, toId: Id): (Id, Id) {
    if LexOrder.Less(fromId, toId) then (fromId, toId) else (toId, fromId)
  }

  lemma LockOrderSorted(fromId: Id, toId: Id)
    ensures var (first, second) := LockOrder(fromId, toId);
            {first, second} == {fromId, toId} && (first == second <==> fromId == toId)
            && (fromId != toId ==> LexOrder.Less(first, second))
  {
    LexOrder.LessTotal(fromId, toId);
  }

  function DebitEntry(row: Transfer, fromId: Id, balance: int): LedgerEntry {
    LedgerEntry(fromId, TransferOut, row.amount, row.currency, balance, OutKey(row.key))
  }

  function CreditEntry(row: Transfer, toId: Id, balance: int): LedgerEntry {
    LedgerEntry(toId, TransferIn, row.amount, row.currency, balance, InKey(row.key))
  }

  /** The commit of a transfer that read both balances from the locked rows. */
  ghost function CommitTransfer(
      db: Db, transferId: Id, row: Transfer, fromId: Id, toId: Id,
      event: OutboxEvent, fromRead: int, toRead: int): Result<Db>
    requires fromId in db.wallets && toId in db.wallets
  {
    var senderNew := JsNumber.Sub(JsNumber.Number(fromRead), row.amount);
    var receiverNew := JsNumber.Add(JsNumber.Number(toRead), row.amount);
    if senderNew < 0 then Err(InsufficientBalance)
    else if LedgerKeyUsed(db.ledger, OutKey(row.key)) || LedgerKeyUsed(db.ledger, InKey(row.key)) then
      Err(DuplicateKey)
    else
      var debited := db.wallets[fromId := db.wallets[fromId].(balance := senderNew)];
      Ok(Db(
        debited[toId := debited[toId].(balance := receiverNew)],
        db.transactions,
        CompleteTransfer(db.transfers, transferId),
        db.ledger + [DebitEntry(row, fromId, senderNew)] + [CreditEntry(row, toId, receiverNew)],
        db.outbox + [event]))
  }

  /** `executeTransfer` as one indivisible operation. A missing wallet surfaces as a failed
      property access, but a missing recipient that would be locked second only after the
      sender's balance check. */
  ghost function ExecuteTransfer(
      db: Db, transferId: Id, row: Transfer, fromId: Id, toId: Id, event: OutboxEvent): Result<Db>
  {
    var (first, second) := LockOrder(fromId, toId);
    if first !in db.wallets || fromId !in db.wallets then Err(MissingRow)
    else if JsNumber.Sub(JsNumber.Number(db.wallets[fromId].balance), row.amount) < 0 then
      Err(InsufficientBalance)
    else if toId !in db.wallets then Err(MissingRow)
    else CommitTransfer(db, transferId, row, fromId, toId, event,
                        db.wallets[fromId].balance, db.wallets[toId].balance)
  }

  function TransferEvent(transferId: Id, row: Transfer): OutboxEvent {
    OutboxEvent(TRANSFER_COMPLETED, transferId,
                TransferPayload(transferId, row.fromUserId, row.toUserId, row.amount, row.currency))
  }

  // ---- The operations the services issue ----

  datatype Op =
    | OpInsertWallet(id: Id, userId: Id, currency: string, tag: string)
    | OpCreateTransaction(id: Id, userId: Id, amount: int, currency: string, key: string)
    | OpSetProviderRef(id: Id, providerRef: string)
    | OpFail(id: Id, reason: string)
    | OpSettle(walletId: Id, txId: Id, tx: Transaction)
    | OpCreateTransfer(id: Id, row: Transfer)
    | OpExecute(id: Id, row: Transfer, fromId: Id, toId: Id)

  ghost function Apply(db: Db, op: Op): Result<Db> {
    match op
    case OpInsertWallet(id, userId, currency, tag) => InsertWallet(db, id, userId, currency, tag)
    case OpCreateTransaction(id, userId, amount, currency, key) =>
      CreateTransaction(db, id, userId, amount, currency, key)
    case OpSetProviderRef(id, providerRef) => Ok(SetProviderRef(db, id, providerRef))
    case OpFail(id, reason) => Ok(FailTransaction(db, id, reason))
    case OpSettle(walletId, txId, tx) =>
      SettleTransaction(db, walletId, txId, tx, Deposit, JsNumber.Number(tx.amount), DepositEvent(walletId, tx))
    case OpCreateTransfer(id, row) => CreateTransfer(db, id, row)
    case OpExecute(id, row, fromId, toId) =>
      ExecuteTransfer(db, id, row, fromId, toId, TransferEvent(id, row))
  }

  /** A serial execution of operations, each of which must succeed. */
  ghost function Replay(db: Db, ops: seq<Op>): Result<Db> {
    if ops == [] then Ok(db)
    else
      var prior := Replay(db, ops[..|ops| - 1]);
      if prior.Err? then prior else Apply(prior.value, ops[|ops| - 1])
  }

  lemma ReplaySnoc(db: Db, ops: seq<Op>, op: Op)
    requires Replay(db, ops).Ok?
    ensures Replay(db, ops + [op]) == Apply(Replay(db, ops).value, op)
  {
    assert (ops + [op])[..|ops|] == ops;
  }
}
