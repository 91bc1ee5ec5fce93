/** The service classes and the webhook controller: each method is proved to serve its request
    as specified, on the database and on the balance cache. */
module Services {
  import opened Rows
  import opened Operations
  import opened StoreInvariant
  import opened Protocol
  import opened Requests
  import opened BalanceCache
  import opened Store
  import opened Repositories
  import JsNumber

  /** The cache store; entries also vanish when their time to live runs out. */
  class CacheStore {
    var entries: Cache

    constructor ()
      ensures entries == map[]
    {
      entries := map[];
    }

    method Get(key: string) returns (r: Option<(Id, Wallet)>)
      ensures r == if key in entries then Some(entries[key]) else None
    {
      r := if key in entries then Some(entries[key]) else None;
    }

    method Set(key: string, id: Id, wallet: Wallet)
      modifies this
      ensures entries == old(entries)[key := (id, wallet)]
    {
      entries := entries[key := (id, wallet)];
    }

    method Del(key: string)
      modifies this
      ensures entries == old(entries) - {key}
    {
      entries := entries - {key};
    }
  }

  class WalletService {
    const db: Database
    const repository: WalletRepository
    const cache: CacheStore

    constructor (repository: WalletRepository, cache: CacheStore)
      ensures this.repository == repository && this.db == repository.db && this.cache == cache
    {
      this.repository := repository;
      this.db := repository.db;
      this.cache := cache;
    }

    ghost predicate Valid()
      reads db
    {
      repository.db == db && db.Valid()
    }

    ghost function State(): Sys
      reads db, cache
    {
      Sys(db.Contents(), cache.entries)
    }

    method CreateWallet(userId: Id, currency: string, id: Id, tag: string) returns (response: Response)
      requires Valid()
      modifies db
      ensures Valid()
      ensures (State(), response) == ServeCached(old(State()), ReqCreateWallet(userId, currency, id, tag))
    {
      var existing := repository.FindByUserIdAndCurrency(userId, currency);
      if existing.Some? {
        response := Conflict;
      } else {
        response := repository.EnsureWalletRow(userId, currency, id, tag);
      }
      assert cache.entries == cache.entries - {};
    }

    method GetBalance(userId: Id, currency: string) returns (response: Response)
      requires Valid()
      modifies cache
      ensures Valid()
      ensures (State(), response) == ServeCached(old(State()), ReqBalance(userId, currency))
    {
      var key := BalanceKey(userId, currency);
      var cached := cache.Get(key);
      if cached.Some? {
        return WalletRow(cached.value.0, cached.value.1);
      }
      var wallet := repository.FindByUserIdAndCurrency(userId, currency);
      if wallet.None? {
        return NotFound;
      }
      cache.Set(key, wallet.value, db.wallets[wallet.value]);
      response := WalletRow(wallet.value, db.wallets[wallet.value]);
    }

    method Deposit(dep: DepositRequest, id: Id, gateway: Gateway) returns (response: Response)
      requires Valid()
      modifies db
      ensures Valid()
      ensures (State(), response) == ServeCached(old(State()), ReqDeposit(dep, id, gateway))
    {
      assert cache.entries == cache.entries - {};
      var existing := repository.FindTransactionByIdempotencyKey(dep.key);
      if existing.Some? {
        return Ignored;
      }
      var wallet := repository.FindByUserIdAndCurrency(dep.userId, dep.currency);
      if wallet.None? {
        return NotFound;
      }
      var ok := repository.CreateTransactionRow(id, dep.userId, dep.amount, dep.currency, dep.key);
      if !ok {
        return Thrown(DuplicateKey);
      }
      match gateway {
        case Threw =>
          response := BadRequest;
        case Declined(reason) =>
          repository.Fail(id, if reason.Some? then reason.value else DECLINED);
          response := BadRequest;
        case Accepted(providerRef, requiresWebhook, checkoutUrl) =>
          if IsRef(providerRef) {
            repository.UpdateTransactionProviderRef(id, providerRef.value);
          }
          response := if requiresWebhook then Initiated(checkoutUrl) else BadRequest;
      }
    }

    method InvalidateBalanceCache(userId: Id, currency: string)
      modifies cache
      ensures cache.entries == old(cache.entries) - {BalanceKey(userId, currency)}
      ensures "wallet:balance:" + userId + ":" + currency !in cache.entries
    {
      cache.Del(BalanceKey(userId, currency));
    }

    /** Settles the row the query returned; only a committed settlement drops the cached balance. */
    method SettleByProviderRef(providerRef: string) returns (response: Response)
      requires Valid()
      modifies db, cache
      ensures Valid()
      ensures exists found ::
        && IsByRef(old(db.Contents()), providerRef, found)
        && (db.Contents(), response) == SettleByRef(old(db.Contents()), found)
        && cache.entries == old(cache.entries)
             - (if response == Succeeded then OwnerKey(old(db.Contents()), found) else {})
    {
      assert cache.entries == cache.entries - {};
      ghost var before := db.Contents();
      var found := repository.FindTransactionByProviderRef(providerRef);
      if found.None? {
        return Ignored;
      }
      var tx := db.transactions[found.value];
      if tx.status != Pending {
        return Ignored;
      }
      var wallet := repository.FindByUserIdAndCurrency(tx.userId, tx.currency);
      if wallet.None? {
        return Ignored;
      }
      var settled := repository.Settle(wallet.value, found.value, tx, EntryKind.Deposit, JsNumber.Number(tx.amount),
                                       DepositEvent(wallet.value, tx));
      if settled.Err? {
        return Thrown(settled.error);
      }
      InvalidateBalanceCache(tx.userId, tx.currency);
      response := Succeeded;
    }

    method FailByProviderRef(providerRef: string, reason: string) returns (response: Response)
      requires Valid()
      modifies db
      ensures Valid()
      ensures exists found ::
        IsByRef(old(db.Contents()), providerRef, found)
        && (db.Contents(), response) == FailByRef(old(db.Contents()), found, reason)
    {
      var found := repository.FindTransactionByProviderRef(providerRef);
      if found.None? || db.transactions[found.value].status != Pending {
        return Ignored;
      }
      repository.Fail(found.value, reason);
      response := Succeeded;
    }
  }

  /** The cache key of the owner of a found transaction. */
  function OwnerKey(db: Db, found: Option<Id>): set<string> {
    match found
    case None => {}
    case Some(id) =>
      if id in db.transactions then {BalanceKey(db.transactions[id].userId, db.transactions[id].currency)} else {}
  }

  lemma FoundIsPicked(db: Db, providerRef: string, found: Option<Id>)
    requires IsByRef(db, providerRef, found)
    ensures FindByRef(db, providerRef, if found.Some? then found.value else "") == found
  {
  }

  class StripeWebhookController {
    const service: WalletService

    constructor (service: WalletService)
      ensures this.service == service
    {
      this.service := service;
    }

    /** Dispatches a verified event; some row matching its session, if any, is served. */
    method HandleEvent(event: WebhookEvent) returns (response: Response)
      requires service.Valid()
      modifies service.db, service.cache
      ensures service.Valid()
      ensures exists pick ::
        (service.State(), response) == ServeCached(old(service.State()), ReqWebhook(event, pick))
    {
      ghost var before := service.State();
      ghost var pick := "";
      assert service.cache.entries == service.cache.entries - {};
      if event.kind == SESSION_COMPLETED {
        if event.paymentStatus == PAID {
          response := service.SettleByProviderRef(event.sessionId);
          ghost var found :|
            && IsByRef(before.db, event.sessionId, found)
            && (service.db.Contents(), response) == SettleByRef(before.db, found)
            && service.cache.entries
               == before.cache - (if response == Succeeded then OwnerKey(before.db, found) else {});
          FoundIsPicked(before.db, event.sessionId, found);
          pick := if found.Some? then found.value else "";
        } else {
          response := Ignored;
        }
      } else if event.kind == SESSION_EXPIRED {
        response := service.FailByProviderRef(event.sessionId, EXPIRY_REASON);
        ghost var found :|
          IsByRef(before.db, event.sessionId, found)
          && (service.db.Contents(), response) == FailByRef(before.db, found, EXPIRY_REASON);
        FoundIsPicked(before.db, event.sessionId, found);
        pick := if found.Some? then found.value else "";
      } else {
        response := Ignored;
      }
      assert (service.State(), response) == ServeCached(before, ReqWebhook(event, pick));
    }
  }

  class TransfersService {
    const db: Database
    const transfers: TransfersRepository
    const wallets: WalletRepository
    const walletService: WalletService

    constructor (transfers: TransfersRepository, walletService: WalletService)
      ensures this.transfers == transfers && this.walletService == walletService
      ensures this.wallets == walletService.repository && this.db == walletService.db
    {
      this.transfers := transfers;
      this.walletService := walletService;
      this.wallets := walletService.repository;
      this.db := walletService.db;
    }

    ghost predicate Valid()
      reads db
    {
      walletService.db == db && transfers.db == db && wallets.db == db && walletService.Valid()
    }

    method Initiate(req: TransferRequest, id: Id) returns (response: Response)
      requires Valid()
      modifies db, walletService.cache
      ensures Valid()
      ensures (walletService.State(), response) == ServeCached(old(walletService.State()), ReqTransfer(req, id))
    {
      hide ExecuteTransfer, CreateTransfer, IndexesHold, FindWallet, FindByTag, TransferKeyUsed, BalanceKey;
      assert walletService.cache.entries == walletService.cache.entries - {};
      var to := wallets.FindByWalletTag(req.toWalletTag);
      if to.None? {
        return NotFound;
      }
      var toWallet := db.wallets[to.value];
      if toWallet.currency != req.currency {
        return BadRequest;
      }
      if req.fromUserId == toWallet.userId {
        return BadRequest;
      }
      var existing := transfers.FindByIdempotencyKey(req.key);
      if existing.Some? {
        return Ignored;
      }
      var from := wallets.FindByUserIdAndCurrency(req.fromUserId, req.currency);
      if from.None? {
        return NotFound;
      }
      var row := NewTransfer(req.fromUserId, toWallet.userId, req.amount, req.currency, req.key);
      var ok := transfers.CreateTransferRow(id, row);
      if !ok {
        return Thrown(DuplicateKey);
      }
      var executed := transfers.Execute(id, row, from.value, to.value, TransferEvent(id, row));
      if executed.Err? {
        return Thrown(executed.error);
      }
      walletService.InvalidateBalanceCache(req.fromUserId, req.currency);
      walletService.InvalidateBalanceCache(toWallet.userId, req.currency);
      assert walletService.cache.entries == old(walletService.cache.entries)
        - {BalanceKey(req.fromUserId, req.currency), BalanceKey(toWallet.userId, req.currency)};
      response := Succeeded;
    }
  }
}
