/** The read-through balance cache refines the plain lookup: for whole requests handled one
    after the other, with any cache entries expiring at any time, every response is the one an
    uncached system gives. */
module BalanceCache {
  import opened Rows
  import opened Operations
  import opened Protocol
  import opened ProtocolInvariant
  import opened StoreInvariant
  import opened Requests

  datatype Request =
    | ReqCreateWallet(userId: Id, currency: string, id: Id, tag: string)
    | ReqRegister(userId: Id, currency: string, id: Id, tag: string)
    | ReqDeposit(dep: DepositRequest, id: Id, gateway: Gateway)
    | ReqWebhook(event: WebhookEvent, pick: Id)
    | ReqTransfer(req: TransferRequest, id: Id)
    | ReqBalance(userId: Id, currency: string)

  /** User ids come from authentication and are UUIDs. */
  predicate Authentic(r: Request) {
    match r
    case ReqCreateWallet(userId, _, _, _) => ColonFree(userId)
    case ReqRegister(userId, _, _, _) => ColonFree(userId)
    case ReqBalance(userId, _) => ColonFree(userId)
    case _ => true
  }

  ghost function Serve(db: Db, r: Request): (Db, Response) {
    match r
    case ReqCreateWallet(userId, currency, id, tag) => CreateWallet(db, userId, currency, id, tag)
    case ReqRegister(userId, currency, id, tag) => EnsureWallet(db, userId, currency, id, tag)
    case ReqDeposit(dep, id, gateway) => StartDeposit(db, dep, id, gateway)
    case ReqWebhook(event, pick) => HandleWebhook(db, event, pick)
    case ReqTransfer(req, id) => InitiateTransfer(db, req, id)
    case ReqBalance(userId, currency) => (db, GetBalance(db, userId, currency))
  }

  type Cache = map<string, (Id, Wallet)>

  datatype Sys = Sys(db: Db, cache: Cache)

  /** The keys a request deletes once it has succeeded. */
  ghost function Invalidated(db: Db, r: Request): set<string> {
    match r
    case ReqWebhook(event, pick) =>
      var found := FindByRef(db, event.sessionId, pick);
      if event.kind == SESSION_COMPLETED && event.paymentStatus == PAID && found.Some?
        && HandleWebhook(db, event, pick).1 == Succeeded
      then
        var tx := db.transactions[found.value];
        {BalanceKey(tx.userId, tx.currency)}
      else {}
    case ReqTransfer(req, id) =>
      var to := FindByTag(db, req.toWalletTag);
      if to.Some? && InitiateTransfer(db, req, id).1 == Succeeded
      then {BalanceKey(req.fromUserId, req.currency), BalanceKey(db.wallets[to.value].userId, req.currency)}
      else {}
    case _ => {}
  }

  ghost function ServeCached(sys: Sys, r: Request): (Sys, Response) {
    if r.ReqBalance? then
      var key := BalanceKey(r.userId, r.currency);
      if key in sys.cache then (sys, WalletRow(sys.cache[key].0, sys.cache[key].1))
      else
        match GetBalance(sys.db, r.userId, r.currency)
        case WalletRow(id, wallet) => (Sys(sys.db, sys.cache[key := (id, wallet)]), WalletRow(id, wallet))
        case other => (sys, other)
    else
      var (db, response) := Serve(sys.db, r);
      (Sys(db, sys.cache - Invalidated(sys.db, r)), response)
  }

  /** A request and the cache keys whose time to live ran out before it. */
  type Turn = (Request, set<string>)

  ghost function Responses(db: Db, turns: seq<Turn>): seq<Response>
    decreases |turns|
  {
    if turns == [] then []
    else
      var (d, response) := Serve(db, turns[0].0);
      [response] + Responses(d, turns[1..])
  }

  ghost function CachedResponses(sys: Sys, turns: seq<Turn>): seq<Response>
    decreases |turns|
  {
    if turns == [] then []
    else
      var (next, response) := ServeCached(Sys(sys.db, sys.cache - turns[0].1), turns[0].0);
      [response] + CachedResponses(next, turns[1..])
  }

  // ---- The invariant ----

  ghost predicate WalletsOk(wallets: map<Id, Wallet>) {
    WalletsUnique(wallets) && forall w :: w in wallets ==> ColonFree(wallets[w].userId)
  }

  /** A cached row is the stored one and sits under its owner's key. */
  predicate FreshEntry(db: Db, key: string, e: (Id, Wallet)) {
    key == BalanceKey(e.1.userId, e.1.currency) && e.0 in db.wallets && db.wallets[e.0] == e.1
  }

  ghost predicate Fresh(sys: Sys) {
    forall key :: key in sys.cache ==> FreshEntry(sys.db, key, sys.cache[key])
  }

  lemma FewerEntriesFresh(db: Db, cache: Cache, gone: set<string>)
    requires Fresh(Sys(db, cache))
    ensures Fresh(Sys(db, cache - gone))
  {
  }

  lemma SameOwnersOk(a: map<Id, Wallet>, b: map<Id, Wallet>)
    requires WalletsOk(a) && WalletsGrow(a, b) && b.Keys == a.Keys
    ensures WalletsOk(b)
  {
    assert forall w :: w in b ==> w in a && WalletKept(a[w], b[w]);
  }

  lemma OpKeepsWalletKeys(db: Db, op: Op, d: Db)
    requires Apply(db, op) == Ok(d) && !op.OpInsertWallet?
    ensures d.wallets.Keys == db.wallets.Keys
  {
  }

  /** What an operation does to the wallets: rows it does not touch stay, owners never change. */
  lemma OpWallets(db: Db, op: Op, d: Db)
    requires Apply(db, op) == Ok(d) && !op.OpInsertWallet? && WalletsOk(db.wallets)
    ensures WalletsOk(d.wallets) && d.wallets.Keys == db.wallets.Keys
    ensures forall w :: w in db.wallets && w !in Touched(op) ==> d.wallets[w] == db.wallets[w]
  {
    OpStable(db, op, d);
    OpKeepsWalletKeys(db, op, d);
    SameOwnersOk(db.wallets, d.wallets);
    hide Apply, WalletsOk;
  }

  lemma InsertWallets(db: Db, id: Id, userId: Id, currency: string, tag: string, d: Db)
    requires InsertWallet(db, id, userId, currency, tag) == Ok(d) && WalletsOk(db.wallets) && ColonFree(userId)
    ensures WalletsOk(d.wallets) && forall w :: w in db.wallets ==> w in d.wallets && d.wallets[w] == db.wallets[w]
  {
    assert forall w :: w in db.wallets && db.wallets[w].userId == userId ==> !Owns(db.wallets, w, userId, currency);
  }

  /** A request's effect on the wallets, in terms of the keys it invalidates. */
  ghost predicate Covers(a: map<Id, Wallet>, b: map<Id, Wallet>, keys: set<string>) {
    && WalletsOk(b)
    && forall w :: w in a && BalanceKey(a[w].userId, a[w].currency) !in keys ==> w in b && b[w] == a[w]
  }

  lemma WebhookCovers(db: Db, event: WebhookEvent, pick: Id)
    requires WalletsOk(db.wallets)
    ensures Covers(db.wallets, HandleWebhook(db, event, pick).0.wallets, Invalidated(db, ReqWebhook(event, pick)))
  {
    var d := HandleWebhook(db, event, pick).0;
    hide WalletsUnique, Apply;
    var found := FindByRef(db, event.sessionId, pick);
    if d.wallets != db.wallets {
      var tx := db.transactions[found.value];
      var w := FindWallet(db, tx.userId, tx.currency);
      var op := OpSettle(w.value, found.value, tx);
      assert Apply(db, op) == Ok(d);
      OpWallets(db, op, d);
    }
  }

  lemma TransferCovers(db: Db, req: TransferRequest, id: Id)
    requires WalletsOk(db.wallets)
    ensures Covers(db.wallets, InitiateTransfer(db, req, id).0.wallets, Invalidated(db, ReqTransfer(req, id)))
  {
    var d := InitiateTransfer(db, req, id).0;
    hide WalletsUnique, Apply;
    if d.wallets != db.wallets {
      var toId := FindByTag(db, req.toWalletTag).value;
      var fromId := FindWallet(db, req.fromUserId, req.currency).value;
      var row := NewTransfer(req.fromUserId, db.wallets[toId].userId, req.amount, req.currency, req.key);
      var created := CreateTransfer(db, id, row).value;
      var op := OpExecute(id, row, fromId, toId);
      assert created.wallets == db.wallets && Apply(created, op) == Ok(d);
      OpWallets(created, op, d);
    }
  }

  lemma RequestCovers(db: Db, r: Request)
    requires WalletsOk(db.wallets) && Authentic(r)
    ensures Covers(db.wallets, Serve(db, r).0.wallets, Invalidated(db, r))
  {
    match r
    case ReqWebhook(event, pick) => WebhookCovers(db, event, pick);
    case ReqTransfer(req, id) => TransferCovers(db, req, id);
    case ReqCreateWallet(userId, currency, id, tag) => EnsureCovers(db, userId, currency, id, tag);
    case ReqRegister(userId, currency, id, tag) => EnsureCovers(db, userId, currency, id, tag);
    case _ =>
  }

  lemma EnsureCovers(db: Db, userId: Id, currency: string, id: Id, tag: string)
    requires WalletsOk(db.wallets) && ColonFree(userId)
    ensures Covers(db.wallets, EnsureWallet(db, userId, currency, id, tag).0.wallets, {})
  {
    var r := InsertWallet(db, id, userId, currency, tag);
    if r.Ok? {
      InsertWallets(db, id, userId, currency, tag, r.value);
    }
  }

  lemma UniqueAnswer(db: Db, id: Id, userId: Id, currency: string)
    requires WalletsUnique(db.wallets) && Owns(db.wallets, id, userId, currency)
    ensures FindWallet(db, userId, currency) == Some(id)
  {
    var r := FindWallet(db, userId, currency);
    assert r.Some?;
    assert Owns(db.wallets, r.value, userId, currency);
  }

  /** One request: same response, same database, and the cache stays fresh. */
  lemma OneTurn(sys: Sys, r: Request)
    requires WalletsOk(sys.db.wallets) && Fresh(sys) && Authentic(r)
    ensures var (next, response) := ServeCached(sys, r);
      && response == Serve(sys.db, r).1 && next.db == Serve(sys.db, r).0
      && WalletsOk(next.db.wallets) && Fresh(next)
  {
    if r.ReqBalance? {
      var key := BalanceKey(r.userId, r.currency);
      if key in sys.cache {
        var e := sys.cache[key];
        assert FreshEntry(sys.db, key, e);
        BalanceKeyInjective(r.userId, r.currency, e.1.userId, e.1.currency);
        UniqueAnswer(sys.db, e.0, r.userId, r.currency);
      }
    } else {
      RequestCovers(sys.db, r);
      hide Serve, Invalidated, WalletsOk;
      var next := ServeCached(sys, r).0;
      forall key | key in next.cache
        ensures FreshEntry(next.db, key, next.cache[key])
      {
        assert FreshEntry(sys.db, key, sys.cache[key]);
      }
    }
  }

  /** Cache refinement: for every sequence of requests and every schedule of expiries, the
      cached system answers exactly as the uncached one. */
  lemma {:induction false} CacheRefinesLookup(sys: Sys, turns: seq<Turn>)
    requires WalletsOk(sys.db.wallets) && Fresh(sys)
    requires forall i :: 0 <= i < |turns| ==> Authentic(turns[i].0)
    ensures CachedResponses(sys, turns) == Responses(sys.db, turns)
    decreases |turns|
  {
    if turns == [] {
    } else {
      var start := Sys(sys.db, sys.cache - turns[0].1);
      FewerEntriesFresh(sys.db, sys.cache, turns[0].1);
      OneTurn(start, turns[0].0);
      hide ServeCached, Serve, WalletsOk, Fresh;
      CacheRefinesLookup(ServeCached(start, turns[0].0).0, turns[1..]);
    }
  }
}
