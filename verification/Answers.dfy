/** What each request answers and leaves behind, field by field and text by text. Only the lookups
    are named here, whose contracts say what they find. */
module Answers {
  import opened Rows
  import opened Operations
  import opened Protocol
  import opened Requests
  import opened BalanceCache
  import JsNumber

  // ---- Transfers ----

  /** A transfer that succeeds stores its request's row, COMPLETED, moves the requested amount, and
      writes one debit, one credit and one event. */
  lemma TransferSucceeds(db: Db, req: TransferRequest, id: Id)
    requires InitiateTransfer(db, req, id).1 == Succeeded
    ensures var to, from := FindByTag(db, req.toWalletTag), FindWallet(db, req.fromUserId, req.currency);
      to.Some? && from.Some? && from.value != to.value &&
      var (a, b) := (db.wallets[from.value], db.wallets[to.value]);
      var left := JsNumber.Sub(JsNumber.Number(a.balance), req.amount);
      var sum := JsNumber.Add(JsNumber.Number(b.balance), req.amount);
      left >= 0 && InitiateTransfer(db, req, id).0 == Db(
        db.wallets[from.value := Wallet(a.userId, a.currency, left, a.tag)]
                  [to.value := Wallet(b.userId, b.currency, sum, b.tag)],
        db.transactions,
        db.transfers[id := Transfer(req.fromUserId, b.userId, req.amount, req.currency, req.key, Completed)],
        db.ledger + [LedgerEntry(from.value, TransferOut, req.amount, req.currency, left, req.key + ":out"),
                     LedgerEntry(to.value, TransferIn, req.amount, req.currency, sum, req.key + ":in")],
        db.outbox + [OutboxEvent("TransferCompleted", id,
                       TransferPayload(id, req.fromUserId, b.userId, req.amount, req.currency))])
  {
    hide JsNumber.Round, FindByTag, FindWallet;
    var a := db.wallets[FindWallet(db, req.fromUserId, req.currency).value];
    var b := db.wallets[FindByTag(db, req.toWalletTag).value];
    var pending := Transfer(req.fromUserId, b.userId, req.amount, req.currency, req.key, Pending);
    assert db.transfers[id := pending][id := pending.(status := Completed)]
        == db.transfers[id := pending.(status := Completed)];
  }

  /** The request names a recipient of the right currency that is somebody else's. */
  ghost predicate Addressed(db: Db, req: TransferRequest) {
    exists w :: w in db.wallets && db.wallets[w].tag == req.toWalletTag
                && db.wallets[w].currency == req.currency && db.wallets[w].userId != req.fromUserId
  }

  predicate TransferRowStored(db: Db, req: TransferRequest, id: Id, toUserId: Id, d: Db) {
    id !in db.transfers
    && d == db.(transfers :=
         db.transfers[id := Transfer(req.fromUserId, toUserId, req.amount, req.currency, req.key, Pending)])
  }

  /** Each refusal of a transfer exactly when it is due, and what it leaves: nothing, or, once
      the row has been inserted, that row, PENDING. Recipients are found by their unique tag. */
  lemma TransferRefused(db: Db, req: TransferRequest, id: Id)
    requires forall v, w :: v in db.wallets && w in db.wallets && v != w ==> db.wallets[v].tag != db.wallets[w].tag
    ensures var (d, answer) := InitiateTransfer(db, req, id);
      var used := exists t :: t in db.transfers && db.transfers[t].key == req.key;
      var from := FindWallet(db, req.fromUserId, req.currency);
      var known := exists w :: w in db.wallets && db.wallets[w].tag == req.toWalletTag;
      && (answer == BadRequest <==> known && !Addressed(db, req))
      && (answer == Ignored <==> Addressed(db, req) && used)
      && (answer == NotFound <==> !known || (Addressed(db, req) && !used && from.None?))
      && (answer in {BadRequest, Ignored, NotFound} ==> d == db)
      && (answer.Succeeded? || answer.Thrown? || answer in {BadRequest, Ignored, NotFound})
      && (Addressed(db, req) && !used && from.Some? ==>
            var left := JsNumber.Sub(JsNumber.Number(db.wallets[from.value].balance), req.amount);
            var posted := exists i :: 0 <= i < |db.ledger| && db.ledger[i].key in {req.key + ":out", req.key + ":in"};
            && (answer == Succeeded <==> id !in db.transfers && left >= 0 && !posted)
            && (answer == Thrown(InsufficientBalance) <==> id !in db.transfers && left < 0)
            && (answer == Thrown(DuplicateKey) <==> id in db.transfers || (left >= 0 && posted))
            && (id in db.transfers ==> d == db)
            && (id !in db.transfers && answer.Thrown? ==>
                  TransferRowStored(db, req, id, db.wallets[FindByTag(db, req.toWalletTag).value].userId, d)))
  {
    hide JsNumber.Round, FindByTag, FindWallet, JsNumber.Sub;
    var found := FindByTag(db, req.toWalletTag);
    if found.Some? {
      assert Addressed(db, req) <==> db.wallets[found.value].currency == req.currency
                                     && db.wallets[found.value].userId != req.fromUserId;
    }
  }

  /** The step of the machine that inserts the row: it stores the request, or stops when the
      insert is refused. */
  lemma TransferStepStores(s: State, p: nat, id: Id, gateway: Gateway)
    requires p in s.procs && s.procs[p].TCreate?
    ensures var TCreate(req, toId, toUserId, fromId) := s.procs[p];
      var t := Next(s, p, id, gateway);
      var row := Transfer(req.fromUserId, toUserId, req.amount, req.currency, req.key, Pending);
      if id in s.db.transfers || exists u :: u in s.db.transfers && s.db.transfers[u].key == req.key then
        t.db == s.db && t.procs[p] == Done
      else
        TransferRowStored(s.db, req, id, toUserId, t.db)
        && t.procs[p] == TLockFirst(Running(id, row, fromId, toId))
  {
  }

  // ---- Deposits ----

  /** The row a deposit inserts. */
  function Asked(dep: DepositRequest, status: Status, ref: Option<string>, reason: Option<string>): Transaction {
    Transaction(dep.userId, dep.amount, dep.currency, dep.key, status, ref, reason)
  }

  lemma DepositAnswers(db: Db, dep: DepositRequest, id: Id, gateway: Gateway)
    ensures var (d, answer) := StartDeposit(db, dep, id, gateway);
      var used := exists t :: t in db.transactions && db.transactions[t].key == dep.key;
      var known := exists w :: Owns(db.wallets, w, dep.userId, dep.currency);
      && (used ==> answer == Ignored && d == db)
      && (!used && !known ==> answer == NotFound && d == db)
      && (!used && known && id in db.transactions ==> answer == Thrown(DuplicateKey) && d == db)
      && (!used && known && id !in db.transactions ==>
            match gateway
            case Threw => answer == BadRequest && Stored(db, id, Asked(dep, Pending, None, None), d)
            case Declined(reason) =>
              var text := if reason.Some? then reason.value else "Payment provider declined";
              answer == BadRequest && Stored(db, id, Asked(dep, Failed, None, Some(text)), d)
            case Accepted(ref, requiresWebhook, url) =>
              && answer == (if requiresWebhook then Initiated(url) else BadRequest)
              && Stored(db, id, Asked(dep, Pending, if ref == Some("") then None else ref, None), d))
  {
    hide FindWallet;
    if id !in db.transactions {
      var row := Asked(dep, Pending, None, None);
      assert forall more: Transaction {:trigger db.transactions[id := more]} ::
        db.transactions[id := row][id := more] == db.transactions[id := more];
    }
  }

  predicate Stored(db: Db, id: Id, row: Transaction, d: Db) {
    d == db.(transactions := db.transactions[id := row])
  }

  // ---- Webhooks ----

  /** Which texts of a Stripe event settle a deposit, which fail it, and that no other does anything. */
  lemma WebhookDispatch(db: Db, event: WebhookEvent, pick: Id)
    ensures var found := FindByRef(db, event.sessionId, pick);
      HandleWebhook(db, event, pick)
      == if event.kind == "checkout.session.completed" && event.paymentStatus == "paid" then SettleByRef(db, found)
         else if event.kind == "checkout.session.expired" then FailByRef(db, found, "Checkout session expired")
         else (db, Ignored)
  {
  }

  /** A settlement credits the stored amount to the owner's wallet, completes the row, and writes
      one entry under the deposit's key and one event that names the owner. */
  lemma SettlementSucceeds(db: Db, t: Id)
    requires t in db.transactions && SettleByRef(db, Some(t)).1 == Succeeded
    ensures var tx := db.transactions[t];
      var w := FindWallet(db, tx.userId, tx.currency);
      tx.status == Pending && w.Some? &&
      var a := db.wallets[w.value];
      var sum := JsNumber.Add(JsNumber.Number(a.balance), JsNumber.Number(tx.amount));
      sum >= 0 && SettleByRef(db, Some(t)).0 == Db(
        db.wallets[w.value := Wallet(tx.userId, tx.currency, sum, a.tag)],
        db.transactions[t := Transaction(tx.userId, tx.amount, tx.currency, tx.key, Completed, tx.providerRef,
                                         tx.failureReason)],
        db.transfers,
        db.ledger + [LedgerEntry(w.value, Deposit, tx.amount, tx.currency, sum, tx.key)],
        db.outbox + [OutboxEvent("DepositSucceeded", w.value,
                       DepositPayload(tx.userId, w.value, JsNumber.Number(tx.amount), tx.currency))])
  {
    hide JsNumber.Round, FindWallet;
  }

  /** When a settlement succeeds, and that otherwise nothing changes. */
  lemma SettlementRefused(db: Db, found: Option<Id>)
    requires found.Some? ==> found.value in db.transactions
    ensures var (d, answer) := SettleByRef(db, found);
      && (answer != Succeeded ==> d == db)
      && (answer == Ignored <==>
            found.None? ||
            (var tx := db.transactions[found.value];
             tx.status != Pending || forall w :: !Owns(db.wallets, w, tx.userId, tx.currency)))
      && (answer != Ignored ==>
            var tx := db.transactions[found.value];
            var a := db.wallets[FindWallet(db, tx.userId, tx.currency).value];
            var sum := JsNumber.Add(JsNumber.Number(a.balance), JsNumber.Number(tx.amount));
            var posted := exists i :: 0 <= i < |db.ledger| && db.ledger[i].key == tx.key;
            answer == if sum < 0 then Thrown(InsufficientBalance)
                      else if posted then Thrown(DuplicateKey)
                      else Succeeded)
  {
    hide JsNumber.Round, FindWallet;
  }

  /** An expiry fails a pending row with the reason given and touches nothing else. */
  lemma FailureAnswers(db: Db, found: Option<Id>, reason: string)
    requires found.Some? ==> found.value in db.transactions
    ensures var (d, answer) := FailByRef(db, found, reason);
      if found.Some? && db.transactions[found.value].status == Pending then
        var tx := db.transactions[found.value];
        answer == Succeeded
        && Stored(db, found.value,
             Transaction(tx.userId, tx.amount, tx.currency, tx.key, Failed, tx.providerRef, Some(reason)), d)
      else d == db && answer == Ignored
  {
  }

  // ---- Wallets ----

  /** A wallet is answered as a conflict exactly when the user has one of that currency; a new one
      is empty. The registration listener answers the existing one instead. */
  lemma WalletAnswers(db: Db, userId: Id, currency: string, id: Id, tag: string)
    ensures var (d, answer) := CreateWallet(db, userId, currency, id, tag);
      var (e, ensured) := EnsureWallet(db, userId, currency, id, tag);
      var has := exists w :: Owns(db.wallets, w, userId, currency);
      var taken := id in db.wallets || exists w :: w in db.wallets && db.wallets[w].tag == tag;
      && (answer == Conflict <==> has)
      && (has ==> d == e == db && ensured.WalletRow?
                  && Owns(db.wallets, ensured.id, userId, currency) && ensured.wallet == db.wallets[ensured.id])
      && (!has ==> e == d && ensured == answer)
      && (!has && taken ==> d == db && answer == Thrown(DuplicateKey))
      && (!has && !taken ==>
            && d == db.(wallets := db.wallets[id := Wallet(userId, currency, 0, tag)])
            && answer == WalletRow(id, Wallet(userId, currency, 0, tag)))
  {
    hide FindWallet;
  }

  /** A balance is answered exactly when the user has a wallet of the currency, with that wallet's row. */
  lemma BalanceAnswers(db: Db, userId: Id, currency: string)
    ensures var answer := GetBalance(db, userId, currency);
      && (answer == NotFound <==> forall w :: !Owns(db.wallets, w, userId, currency))
      && (answer != NotFound ==> answer.WalletRow? && Owns(db.wallets, answer.id, userId, currency)
                                 && answer.wallet == db.wallets[answer.id])
  {
    hide FindWallet;
  }

  // ---- The balance cache ----

  /** What a request leaves in the cache: a miss is filled, a transfer that succeeded drops the entries of
      both parties, a credited payment that of the owner, and nothing else touches it. */
  lemma CacheAfter(sys: Sys, r: Request)
    ensures var (after, answer) := ServeCached(sys, r);
      match r
      case ReqBalance(userId, currency) =>
        var key := "wallet:balance:" + userId + ":" + currency;
        if key in sys.cache then after.cache == sys.cache && answer == WalletRow(sys.cache[key].0, sys.cache[key].1)
        else
          answer == GetBalance(sys.db, userId, currency)
          && after.cache == if answer.WalletRow? then sys.cache[key := (answer.id, answer.wallet)] else sys.cache
      case ReqTransfer(req, id) =>
        after.cache ==
          if answer == Succeeded then
            var to := sys.db.wallets[FindByTag(sys.db, req.toWalletTag).value];
            sys.cache - {"wallet:balance:" + req.fromUserId + ":" + req.currency,
                         "wallet:balance:" + to.userId + ":" + to.currency}
          else sys.cache
      case ReqWebhook(event, pick) =>
        after.cache ==
          if answer == Succeeded && event.kind == "checkout.session.completed" then
            var tx := sys.db.transactions[FindByRef(sys.db, event.sessionId, pick).value];
            sys.cache - {"wallet:balance:" + tx.userId + ":" + tx.currency}
          else sys.cache
      case _ => after.cache == sys.cache
  {
    hide FindWallet, FindByTag, ExecuteTransfer, CreateTransfer, TransferKeyUsed, FindByRef, SettleByRef, FailByRef;
    assert sys.cache - {} == sys.cache;
    if r.ReqWebhook? && FindByRef(sys.db, r.event.sessionId, r.pick).None? {
      assert SettleByRef(sys.db, None).1 == Ignored by {
        SettlementRefused(sys.db, None);
      }
    }
  }

  /** The machine's lookup: an entry is served for 60 seconds and not longer; a row read is cached
      from the moment it is stored, under its owner's key, and answered. */
  lemma BalanceSteps(s: State, p: nat, id: Id, gateway: Gateway)
    requires p in s.procs && (s.procs[p].BGet? || s.procs[p].BFill?)
    ensures var t := Next(s, p, id, gateway);
      var key := "wallet:balance:" + s.procs[p].userId + ":" + s.procs[p].currency;
      t.db == s.db &&
      match s.procs[p]
      case BGet(userId, currency) =>
        t.cache == s.cache &&
        if key in s.cache && s.now - s.cache[key].setAt < 60_000 then
          t.procs[p] == Done
          && t.answers == s.answers + [Answer(userId, currency, s.cache[key].seen, s.cache[key].setAt, s.now)]
        else t.procs[p] == BRead(userId, currency) && t.answers == s.answers
      case BFill(userId, currency, seen) =>
        t.procs[p] == Done && t.cache == s.cache[key := CacheEntry(seen, s.now)]
        && t.answers == s.answers + [Answer(userId, currency, seen, s.now, s.now)]
      case _ => true
  {
    hide FindWallet, FindByTag, TransferKeyUsed, TransactionKeyUsed;
  }
}
