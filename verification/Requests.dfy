/** What one whole request does when nothing else runs at the same time, without a cache. */
module Requests {
  import opened Rows
  import opened Operations
  import opened Protocol

  datatype Response =
    | Succeeded
    | Initiated(checkoutUrl: Option<string>)   // a deposit that awaits its webhook
    | Ignored                          // a duplicate, a no-op or an unknown reference
    | WalletRow(id: Id, wallet: Wallet)
    | NotFound
    | BadRequest
    | Conflict
    | Thrown(error: Error)

  /** A verified Stripe event: its type, session id and payment status. */
  datatype WebhookEvent = WebhookEvent(kind: string, sessionId: string, paymentStatus: string)

  const SESSION_COMPLETED := "checkout.session.completed"
  const SESSION_EXPIRED := "checkout.session.expired"
  const PAID := "paid"
  const EXPIRY_REASON := "Checkout session expired"

  ghost function CreateWallet(db: Db, userId: Id, currency: string, id: Id, tag: string): (Db, Response) {
    if FindWallet(db, userId, currency).Some? then (db, Conflict)
    else EnsureWallet(db, userId, currency, id, tag)
  }

  ghost function EnsureWallet(db: Db, userId: Id, currency: string, id: Id, tag: string): (Db, Response) {
    match FindWallet(db, userId, currency)
    case Some(existing) => (db, WalletRow(existing, db.wallets[existing]))
    case None =>
      match InsertWallet(db, id, userId, currency, tag)
      case Ok(d) => (d, WalletRow(id, Wallet(userId, currency, 0, tag)))
      case Err(e) => (db, Thrown(e))
  }

  ghost function StartDeposit(db: Db, dep: DepositRequest, id: Id, gateway: Gateway): (Db, Response) {
    if TransactionKeyUsed(db, dep.key) then (db, Ignored)
    else if FindWallet(db, dep.userId, dep.currency).None? then (db, NotFound)
    else
      match CreateTransaction(db, id, dep.userId, dep.amount, dep.currency, dep.key)
      case Err(e) => (db, Thrown(e))
      case Ok(d) =>
        match gateway
        case Threw => (d, BadRequest)
        case Declined(reason) =>
          (FailTransaction(d, id, if reason.Some? then reason.value else DECLINED), BadRequest)
        case Accepted(providerRef, requiresWebhook, checkoutUrl) =>
          (if IsRef(providerRef) then SetProviderRef(d, id, providerRef.value) else d,
           if requiresWebhook then Initiated(checkoutUrl) else BadRequest)
  }

  /** The row the query by `provider_ref` returns; `pick` says which when several match. */
  ghost function FindByRef(db: Db, providerRef: string, pick: Id): (r: Option<Id>)
    ensures IsByRef(db, providerRef, r)
  {
    if HasRef(db, pick, providerRef) then Some(pick)
    else if t :| HasRef(db, t, providerRef) then Some(t)
    else None
  }

  ghost function SettleByRef(db: Db, found: Option<Id>): (Db, Response)
    requires found.Some? ==> found.value in db.transactions
  {
    if found.None? || db.transactions[found.value].status != Pending then (db, Ignored)
    else
      var tx := db.transactions[found.value];
      match FindWallet(db, tx.userId, tx.currency)
      case None => (db, Ignored)
      case Some(walletId) =>
        match Apply(db, OpSettle(walletId, found.value, tx))
        case Ok(d) => (d, Succeeded)
        case Err(e) => (db, Thrown(e))
  }

  ghost function FailByRef(db: Db, found: Option<Id>, reason: string): (Db, Response)
    requires found.Some? ==> found.value in db.transactions
  {
    if found.None? || db.transactions[found.value].status != Pending then (db, Ignored)
    else (FailTransaction(db, found.value, reason), Succeeded)
  }

  ghost function HandleWebhook(db: Db, event: WebhookEvent, pick: Id): (Db, Response) {
    var found := FindByRef(db, event.sessionId, pick);
    if event.kind == SESSION_COMPLETED then
      if event.paymentStatus == PAID then SettleByRef(db, found) else (db, Ignored)
    else if event.kind == SESSION_EXPIRED then FailByRef(db, found, EXPIRY_REASON)
    else (db, Ignored)
  }

  ghost function InitiateTransfer(db: Db, req: TransferRequest, id: Id): (Db, Response) {
    match FindByTag(db, req.toWalletTag)
    case None => (db, NotFound)
    case Some(toId) =>
      var to := db.wallets[toId];
      if to.currency != req.currency || req.fromUserId == to.userId then (db, BadRequest)
      else if TransferKeyUsed(db, req.key) then (db, Ignored)
      else
        match FindWallet(db, req.fromUserId, req.currency)
        case None => (db, NotFound)
        case Some(fromId) =>
          var row := NewTransfer(req.fromUserId, to.userId, req.amount, req.currency, req.key);
          match CreateTransfer(db, id, row)
          case Err(e) => (db, Thrown(e))
          case Ok(d) =>
            match Apply(d, OpExecute(id, row, fromId, toId))
            case Err(e) => (d, Thrown(e))
            case Ok(done) => (done, Succeeded)
  }

  ghost function GetBalance(db: Db, userId: Id, currency: string): Response {
    match FindWallet(db, userId, currency)
    case None => NotFound
    case Some(id) => WalletRow(id, db.wallets[id])
  }
}
