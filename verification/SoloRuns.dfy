/** The two descriptions of the services agree: a request that runs alone in the concurrent
    machine does to the database and to the live cache entries, and answers, exactly what the
    serial specification says, which is the one the service classes implement. */
module SoloRuns {
  import opened Rows
  import opened Operations
  import opened Protocol
  import opened Requests
  import opened BalanceCache
  import opened Progress
  import JsNumber

  ghost predicate OnlyOf(run: seq<Action>, p: nat) {
    forall i :: 0 <= i < |run| ==> run[i].Go? && run[i].p == p
  }

  /** Steps of process `p` alone lead from `s` to `t`. */
  ghost predicate Alone(s: State, p: nat, t: State) {
    exists run :: OnlyOf(run, p) && Continue(s, run) == Some(t)
  }

  lemma AloneNow(s: State, p: nat)
    ensures Alone(s, p, s)
  {
    assert OnlyOf([], p) && Continue(s, []) == Some(s);
  }

  lemma AloneVia(s: State, p: nat, id: Id, gateway: Gateway, t: State)
    requires CanGo(s, p, id, gateway) && Alone(Next(s, p, id, gateway), p, t)
    ensures Alone(s, p, t)
  {
    hide Next, CanGo;
    var a := Go(p, id, gateway);
    var rest :| OnlyOf(rest, p) && Continue(Next(s, p, id, gateway), rest) == Some(t);
    ContinueCons(s, a, rest);
    assert OnlyOf([a] + rest, p);
  }

  // ---- The serial view of a state ----

  predicate Alive(e: CacheEntry, now: nat) {
    now < e.setAt + BALANCE_CACHE_TTL_MS
  }

  /** The database and the cache entries whose time to live has not run out. */
  function Live(s: State): Sys {
    Sys(s.db, map key | key in s.cache && Alive(s.cache[key], s.now)
                :: (s.cache[key].seen.walletId, s.cache[key].seen.wallet))
  }

  /** The state in which a request arrives; other Stripe events start no process. */
  function ArrivesAs(r: Request): Option<Proc> {
    match r
    case ReqCreateWallet(userId, currency, _, tag) => Some(WFind(userId, currency, tag))
    case ReqRegister(userId, currency, _, tag) => Some(WEnsure(userId, currency, tag))
    case ReqDeposit(dep, _, _) => Some(DFindExisting(dep))
    case ReqTransfer(req, _) => Some(TFindRecipient(req))
    case ReqBalance(userId, currency) => Some(BGet(userId, currency))
    case ReqWebhook(event, _) =>
      if event.kind == SESSION_COMPLETED && event.paymentStatus == PAID then Some(SFind(event.sessionId))
      else if event.kind == SESSION_EXPIRED then Some(FFind(event.sessionId, EXPIRY_REASON))
      else None
  }

  /** Only process `p` has moved, to its end, and nothing stays locked. */
  predicate Ended(s: State, p: nat, t: State) {
    t.procs == s.procs[p := Done] && t.locks == map[] && t.now == s.now
  }

  predicate Answered(s: State, r: Request, response: Response, t: State) {
    if r.ReqBalance? && response.WalletRow? then
      |t.answers| == |s.answers| + 1 && t.answers[..|s.answers|] == s.answers
      && var a := t.answers[|s.answers|];
         a.userId == r.userId && a.currency == r.currency
         && a.seen.walletId == response.id && a.seen.wallet == response.wallet
    else t.answers == s.answers
  }

  /** `t` is what serving `r` serially in `s` comes to. */
  ghost predicate Serves(s: State, p: nat, r: Request, t: State) {
    var (sys, response) := ServeCached(Live(s), r);
    Ended(s, p, t) && Live(t) == sys && Answered(s, r, response, t)
  }

  // ---- Cache deletions ----

  lemma {:induction false} DropsAlone(s: State, p: nat, keys: set<string>) returns (t: State)
    requires p in s.procs && s.procs[p] == Invalidate(keys)
    ensures Alone(s, p, t) && t == s.(procs := s.procs[p := Done], cache := s.cache - keys)
    decreases keys
  {
    if keys == {} {
      t := Next(s, p, "", Threw);
      assert t.procs == s.procs[p := Done] && s.cache - keys == s.cache;
      AloneNow(t, p);
      AloneVia(s, p, "", Threw, t);
    } else {
      var key :| key in keys;
      var next := Next(s, p, key, Threw);
      t := DropsAlone(next, p, keys - {key});
      assert next.procs[p := Done] == s.procs[p := Done];
      assert next.cache - (keys - {key}) == s.cache - keys;
      AloneVia(s, p, key, Threw, t);
    }
  }

  // ---- Database transactions ----

  /** What a process is left with after `op`, its cache deletions included. */
  ghost predicate Executed(s: State, p: nat, op: Op, keys: set<string>, t: State) {
    && Ended(s, p, t) && t.answers == s.answers
    && match Apply(s.db, op)
       case Ok(d) => t.db == d && t.cache == s.cache - keys
       case Err(_) => t.db == s.db && t.cache == s.cache
  }

  lemma FinishAlone(start: State, s: State, p: nat, op: Op, keys: set<string>) returns (t: State)
    requires p in s.procs && start.procs[p := Done] == s.procs[p := Done]
    requires forall w :: w in s.locks ==> s.locks[w] == p
    requires s == start.(procs := s.procs, locks := s.locks)
    ensures Alone(Finish(s, p, op, Apply(s.db, op), Invalidate(keys)), p, t) && Executed(start, p, op, keys, t)
  {
    hide Apply;
    var next := Finish(s, p, op, Apply(s.db, op), Invalidate(keys));
    assert next.locks == map[];
    if Apply(s.db, op).Ok? {
      t := DropsAlone(next, p, keys);
      assert next.procs[p := Done] == s.procs[p := Done];
    } else {
      t := next;
      AloneNow(t, p);
    }
  }

  /** The commit that follows both locks. */
  lemma CommitAlone(start: State, s: State, p: nat, x: Running) returns (t: State)
    requires p in s.procs && start.procs[p := Done] == s.procs[p := Done]
    requires s.procs[p] == TCommit(x, BalanceOf(s.db, x.First()), BalanceOf(s.db, x.Second()))
    requires forall w :: w in s.locks ==> s.locks[w] == p
    requires s == start.(procs := s.procs, locks := s.locks)
    requires x.fromId in s.db.wallets && x.toId in s.db.wallets
    ensures Alone(s, p, t) && Executed(start, p, OpExecute(x.id, x.row, x.fromId, x.toId), TransferKeys(x.row), t)
  {
    LockOrderSorted(x.fromId, x.toId);
    t := FinishAlone(start, s, p, OpExecute(x.id, x.row, x.fromId, x.toId), TransferKeys(x.row));
    ExecutesCurrent(s.db, x);
    hide Alone, Executed, Finish, Apply, CommitTransfer, TransferKeys;
    AloneVia(s, p, "", Threw, t);
  }

  lemma SecondAlone(start: State, s: State, p: nat, x: Running) returns (t: State)
    requires start.locks == map[]
    requires s == Moved(start.(locks := map[x.First() := p]), p, TLockSecond(x, BalanceOf(s.db, x.First())))
    requires x.fromId in s.db.wallets && x.toId in s.db.wallets
    ensures Alone(s, p, t) && Executed(start, p, OpExecute(x.id, x.row, x.fromId, x.toId), TransferKeys(x.row), t)
  {
    LockOrderSorted(x.fromId, x.toId);
    hide LockOrder, CommitTransfer, Apply, TransferKeys, Alone, Executed;
    var one := Lock(s, p, x.Second(), TCommit(x, BalanceOf(s.db, x.First()), BalanceOf(s.db, x.Second())));
    t := CommitAlone(start, one, p, x);
    hide BalanceOf, Lock;
    AloneVia(s, p, "", Threw, t);
  }

  lemma RunningAlone(s: State, p: nat, x: Running) returns (t: State)
    requires p in s.procs && s.procs[p] == TLockFirst(x) && s.locks == map[]
    requires x.fromId in s.db.wallets && x.toId in s.db.wallets
    ensures Alone(s, p, t) && Executed(s, p, OpExecute(x.id, x.row, x.fromId, x.toId), TransferKeys(x.row), t)
  {
    LockOrderSorted(x.fromId, x.toId);
    hide LockOrder, CommitTransfer, Apply, TransferKeys, Alone, Executed;
    var one := Lock(s, p, x.First(), TLockSecond(x, BalanceOf(s.db, x.First())));
    t := SecondAlone(s, one, p, x);
    hide BalanceOf, Lock;
    AloneVia(s, p, "", Threw, t);
  }

  /** With both balances current the commit is the atomic operation. */
  lemma ExecutesCurrent(db: Db, x: Running)
    requires x.fromId in db.wallets && x.toId in db.wallets
    ensures CommitTransfer(db, x.id, x.row, x.fromId, x.toId, TransferEvent(x.id, x.row),
                           BalanceOf(db, x.fromId), BalanceOf(db, x.toId))
         == Apply(db, OpExecute(x.id, x.row, x.fromId, x.toId))
  {
    LockOrderSorted(x.fromId, x.toId);
  }

  lemma SettlingAlone(s: State, p: nat, txId: Id, tx: Transaction, walletId: Id) returns (t: State)
    requires p in s.procs && s.procs[p] == SLock(txId, tx, walletId) && s.locks == map[]
    requires walletId in s.db.wallets
    ensures Alone(s, p, t) && Executed(s, p, OpSettle(walletId, txId, tx), {BalanceKey(tx.userId, tx.currency)}, t)
  {
    var read := BalanceOf(s.db, walletId);
    var op := OpSettle(walletId, txId, tx);
    var one := Moved(s.(locks := s.locks[walletId := p]), p, SCommit(txId, tx, walletId, read));
    t := FinishAlone(s, one, p, op, {BalanceKey(tx.userId, tx.currency)});
    assert CommitSettlement(s.db, walletId, txId, tx, Deposit, JsNumber.Number(tx.amount),
                            DepositEvent(walletId, tx), read)
        == Apply(s.db, op);
    hide Alone, Executed, Finish, Apply, CommitSettlement, BalanceKey;
    AloneVia(one, p, "", Threw, t);
    AloneVia(s, p, "", Threw, t);
  }

  // ---- Whole requests ----

  /** The request has ended with database `d`, the keys deleted from the cache, and no answer. */
  ghost predicate Served(s: State, p: nat, d: Db, keys: set<string>, t: State) {
    Ended(s, p, t) && t.answers == s.answers && t.db == d && t.cache == s.cache - keys
  }

  lemma ServedServes(s: State, p: nat, r: Request, t: State)
    requires !r.ReqBalance? && Served(s, p, Serve(s.db, r).0, Invalidated(s.db, r), t)
    ensures Serves(s, p, r, t)
  {
    hide Serve, Invalidated;
    assert Live(t).cache == Live(s).cache - Invalidated(s.db, r);
  }

  /** The process ends with its next step, without any effect. */
  lemma EndsAlone(s: State, p: nat) returns (t: State)
    requires p in s.procs && s.locks == map[]
    ensures t == Moved(s, p, Done) && Alone(t, p, t) && Served(s, p, s.db, {}, t)
  {
    t := Moved(s, p, Done);
    AloneNow(t, p);
    assert s.cache - {} == s.cache;
  }

  lemma StatementAlone(s: State, p: nat, op: Op) returns (t: State)
    requires p in s.procs && s.locks == map[]
    ensures t == Statement(s, p, op, Done) && Alone(t, p, t)
    ensures Served(s, p, if Apply(s.db, op).Ok? then Apply(s.db, op).value else s.db, {}, t)
  {
    hide Apply;
    t := Statement(s, p, op, Done);
    AloneNow(t, p);
    assert s.cache - {} == s.cache && t.locks == map[];
  }

  lemma CreatedAlone(s: State, p: nat, req: TransferRequest, toId: Id, toUserId: Id, fromId: Id, id: Id)
          returns (t: State)
    requires p in s.procs && s.procs[p] == TCreate(req, toId, toUserId, fromId) && s.locks == map[]
    requires fromId in s.db.wallets && toId in s.db.wallets
    ensures Alone(s, p, t)
    ensures var row := NewTransfer(req.fromUserId, toUserId, req.amount, req.currency, req.key);
      match CreateTransfer(s.db, id, row)
      case Err(_) => Served(s, p, s.db, {}, t)
      case Ok(d) =>
        match Apply(d, OpExecute(id, row, fromId, toId))
        case Err(_) => Served(s, p, d, {}, t)
        case Ok(done) => Served(s, p, done, TransferKeys(row), t)
  {
    var row := NewTransfer(req.fromUserId, toUserId, req.amount, req.currency, req.key);
    var one := InsertTransfer(s, p, req, toId, toUserId, fromId, id);
    assert s.cache - {} == s.cache && one.locks == map[];
    if CreateTransfer(s.db, id, row).Ok? {
      t := RunningAlone(one, p, Running(id, row, fromId, toId));
      assert one.procs[p := Done] == s.procs[p := Done];
    } else {
      t := one;
      AloneNow(t, p);
    }
    hide Alone, TransferKeys, Apply, CreateTransfer, Executed;
    AloneVia(s, p, id, Threw, t);
  }

  /** From the lookup of the key on: the recipient's wallet is acceptable. */
  lemma RecipientAlone(s: State, p: nat, req: TransferRequest, id: Id, toId: Id, toUserId: Id) returns (t: State)
    requires p in s.procs && s.procs[p] == TFindExisting(req, toId, toUserId) && s.locks == map[]
    requires FindByTag(s.db, req.toWalletTag) == Some(toId) && s.db.wallets[toId].currency == req.currency
    requires s.db.wallets[toId].userId == toUserId != req.fromUserId
    ensures Alone(s, p, t)
    ensures Served(s, p, InitiateTransfer(s.db, req, id).0, Invalidated(s.db, ReqTransfer(req, id)), t)
  {
    hide Alone, Apply, CreateTransfer, BalanceKey, TransferKeyUsed;
    if TransferKeyUsed(s.db, req.key) {
      t := EndsAlone(s, p);
    } else {
      var one := Moved(s, p, TFindSender(req, toId, toUserId));
      var from := FindWallet(s.db, req.fromUserId, req.currency);
      if from.None? {
        t := EndsAlone(one, p);
      } else {
        t := CreatedAlone(Moved(one, p, TCreate(req, toId, toUserId, from.value)), p, req, toId, toUserId,
            from.value, id);
      }
      hide Served, InitiateTransfer, Invalidated;
      AloneVia(one, p, "", Threw, t);
    }
    AloneVia(s, p, "", Threw, t);
  }

  lemma TransferAlone(s: State, p: nat, req: TransferRequest, id: Id) returns (t: State)
    requires p in s.procs && s.procs[p] == TFindRecipient(req) && s.locks == map[]
    ensures Alone(s, p, t)
    ensures Served(s, p, InitiateTransfer(s.db, req, id).0, Invalidated(s.db, ReqTransfer(req, id)), t)
  {
    var to := FindByTag(s.db, req.toWalletTag);
    var one := FindRecipient(s, p, req);
    hide Alone, Apply, CreateTransfer, BalanceKey;
    if one.procs[p].Done? {
      t := EndsAlone(s, p);
    } else {
      hide InitiateTransfer, Invalidated;
      t := RecipientAlone(one, p, req, id, to.value, s.db.wallets[to.value].userId);
    }
    AloneVia(s, p, "", Threw, t);
  }

  /** From the lookup of the wallet on: the row found is pending. */
  lemma FoundAlone(s: State, p: nat, id: Id) returns (t: State)
    requires id in s.db.transactions && s.db.transactions[id].status == Pending && s.locks == map[]
    requires p in s.procs && s.procs[p] == SFindWallet(id, s.db.transactions[id])
    ensures var tx, (d, response) := s.db.transactions[id], SettleByRef(s.db, Some(id));
      Alone(s, p, t) && Served(s, p, d, if response == Succeeded then {BalanceKey(tx.userId, tx.currency)} else {}, t)
  {
    hide Alone, Apply, BalanceKey;
    var tx := s.db.transactions[id];
    var w := FindWallet(s.db, tx.userId, tx.currency);
    if w.None? {
      t := EndsAlone(s, p);
    } else {
      var one := Moved(s, p, SLock(id, tx, w.value));
      t := SettlingAlone(one, p, id, tx, w.value);
      assert s.cache - {} == s.cache && one.procs[p := Done] == s.procs[p := Done];
    }
    hide Served, SettleByRef, Executed;
    AloneVia(s, p, "", Threw, t);
  }

  lemma SettleAlone(s: State, p: nat, event: WebhookEvent, pick: Id) returns (t: State)
    requires p in s.procs && s.procs[p] == SFind(event.sessionId) && s.locks == map[]
    requires event.kind == SESSION_COMPLETED && event.paymentStatus == PAID
    ensures Alone(s, p, t)
    ensures Served(s, p, HandleWebhook(s.db, event, pick).0, Invalidated(s.db, ReqWebhook(event, pick)), t)
  {
    var found := FindByRef(s.db, event.sessionId, pick);
    var id := if found.Some? then found.value else "";
    hide Alone, Apply, BalanceKey;
    if found.None? || s.db.transactions[id].status != Pending {
      t := EndsAlone(s, p);
    } else {
      hide SettleByRef;
      t := FoundAlone(Moved(s, p, SFindWallet(id, s.db.transactions[id])), p, id);
    }
    AloneVia(s, p, id, Threw, t);
  }

  lemma ExpireAlone(s: State, p: nat, event: WebhookEvent, pick: Id) returns (t: State)
    requires p in s.procs && s.procs[p] == FFind(event.sessionId, EXPIRY_REASON) && s.locks == map[]
    requires event.kind == SESSION_EXPIRED
    ensures Alone(s, p, t)
    ensures Served(s, p, HandleWebhook(s.db, event, pick).0, Invalidated(s.db, ReqWebhook(event, pick)), t)
  {
    var found := FindByRef(s.db, event.sessionId, pick);
    var id := if found.Some? then found.value else "";
    hide Alone;
    if found.None? || s.db.transactions[id].status != Pending {
      t := EndsAlone(s, p);
    } else {
      var one := Moved(s, p, FWrite(id, EXPIRY_REASON));
      t := StatementAlone(one, p, OpFail(id, EXPIRY_REASON));
      AloneVia(one, p, "", Threw, t);
    }
    AloneVia(s, p, id, Threw, t);
  }

  /** The database after the gateway's answer for row `id`. */
  function AnsweredDb(db: Db, id: Id, gateway: Gateway): Db {
    match gateway
    case Threw => db
    case Declined(reason) => FailTransaction(db, id, if reason.Some? then reason.value else DECLINED)
    case Accepted(providerRef, _, _) => if IsRef(providerRef) then SetProviderRef(db, id, providerRef.value) else db
  }

  lemma AnsweredAlone(s: State, p: nat, id: Id, gateway: Gateway) returns (t: State)
    requires p in s.procs && s.procs[p] == DGateway(id) && s.locks == map[]
    ensures Alone(s, p, t) && Served(s, p, AnsweredDb(s.db, id, gateway), {}, t)
  {
    var one := Moved(s, p, AfterGateway(id, gateway));
    hide Alone;
    match one.procs[p] {
      case FWrite(txId, reason) =>
        t := StatementAlone(one, p, OpFail(txId, reason));
        AloneVia(one, p, "", Threw, t);
      case DSetRef(txId, providerRef) =>
        t := StatementAlone(one, p, OpSetProviderRef(txId, providerRef));
        AloneVia(one, p, "", Threw, t);
      case _ =>
        t := EndsAlone(s, p);
    }
    AloneVia(s, p, "", gateway, t);
  }

  lemma CreateDepositAlone(s: State, p: nat, dep: DepositRequest, id: Id, gateway: Gateway) returns (t: State)
    requires p in s.procs && s.procs[p] == DCreate(dep) && s.locks == map[]
    requires !TransactionKeyUsed(s.db, dep.key) && FindWallet(s.db, dep.userId, dep.currency).Some?
    ensures Alone(s, p, t) && Served(s, p, StartDeposit(s.db, dep, id, gateway).0, {}, t)
  {
    hide Alone, TransactionKeyUsed, FindWallet;
    var op := OpCreateTransaction(id, dep.userId, dep.amount, dep.currency, dep.key);
    if Apply(s.db, op).Ok? {
      var one := Statement(s, p, op, DGateway(id));
      assert one.locks == map[];
      t := AnsweredAlone(one, p, id, gateway);
      assert one.procs[p := Done] == s.procs[p := Done];
    } else {
      t := EndsAlone(s, p);
      assert t.locks == Released(s.locks, p);
    }
    AloneVia(s, p, id, Threw, t);
  }

  lemma DepositAlone(s: State, p: nat, dep: DepositRequest, id: Id, gateway: Gateway) returns (t: State)
    requires p in s.procs && s.procs[p] == DFindExisting(dep) && s.locks == map[]
    ensures Alone(s, p, t) && Served(s, p, StartDeposit(s.db, dep, id, gateway).0, {}, t)
  {
    hide Alone, TransactionKeyUsed, FindWallet;
    if TransactionKeyUsed(s.db, dep.key) {
      t := EndsAlone(s, p);
    } else {
      var one := Moved(s, p, DFindWallet(dep));
      if FindWallet(s.db, dep.userId, dep.currency).None? {
        t := EndsAlone(one, p);
      } else {
        t := CreateDepositAlone(Moved(one, p, DCreate(dep)), p, dep, id, gateway);
      }
      hide StartDeposit, Served;
      AloneVia(one, p, "", Threw, t);
    }
    AloneVia(s, p, "", Threw, t);
  }

  lemma EnsureAlone(s: State, p: nat, userId: Id, currency: string, id: Id, tag: string) returns (t: State)
    requires p in s.procs && s.procs[p] == WEnsure(userId, currency, tag) && s.locks == map[]
    ensures Alone(s, p, t) && Served(s, p, EnsureWallet(s.db, userId, currency, id, tag).0, {}, t)
  {
    hide Alone, InsertWallet;
    if FindWallet(s.db, userId, currency).Some? {
      t := EndsAlone(s, p);
    } else {
      var one := Moved(s, p, WInsert(userId, currency, tag));
      t := StatementAlone(one, p, OpInsertWallet(id, userId, currency, tag));
      AloneVia(one, p, id, Threw, t);
    }
    AloneVia(s, p, "", Threw, t);
  }

  lemma CreateWalletAlone(s: State, p: nat, userId: Id, currency: string, id: Id, tag: string) returns (t: State)
    requires p in s.procs && s.procs[p] == WFind(userId, currency, tag) && s.locks == map[]
    ensures Alone(s, p, t) && Served(s, p, CreateWallet(s.db, userId, currency, id, tag).0, {}, t)
  {
    hide Alone, EnsureWallet;
    if FindWallet(s.db, userId, currency).Some? {
      t := EndsAlone(s, p);
    } else {
      t := EnsureAlone(Moved(s, p, WEnsure(userId, currency, tag)), p, userId, currency, id, tag);
    }
    AloneVia(s, p, "", Threw, t);
  }

  lemma ReadAlone(s: State, p: nat, userId: Id, currency: string) returns (t: State)
    requires p in s.procs && s.procs[p] == BRead(userId, currency) && s.locks == map[]
    requires BalanceKey(userId, currency) !in Live(s).cache
    ensures Alone(s, p, t) && Serves(s, p, ReqBalance(userId, currency), t)
  {
    hide Alone, BalanceKey;
    var key := BalanceKey(userId, currency);
    var w := FindWallet(s.db, userId, currency);
    if w.None? {
      t := EndsAlone(s, p);
      assert Live(t) == Live(s);
    } else {
      var seen := Seen(w.value, s.db.wallets[w.value], s.now, |s.db.ledger|);
      var one := Moved(s, p, BFill(userId, currency, seen));
      t := FillCache(one, p, userId, currency, seen);
      AloneNow(t, p);
      AloneVia(one, p, "", Threw, t);
      FillLive(one, p, userId, currency, seen);
    }
    assert Serves(s, p, ReqBalance(userId, currency), t);
    hide Live, Serves;
    AloneVia(s, p, "", Threw, t);
  }

  lemma FillLive(s: State, p: nat, userId: Id, currency: string, seen: Seen)
    ensures Live(FillCache(s, p, userId, currency, seen)).cache
         == Live(s).cache[BalanceKey(userId, currency) := (seen.walletId, seen.wallet)]
  {
    hide BalanceKey;
  }

  lemma BalanceAlone(s: State, p: nat, userId: Id, currency: string) returns (t: State)
    requires p in s.procs && s.procs[p] == BGet(userId, currency) && s.locks == map[]
    ensures Alone(s, p, t) && Serves(s, p, ReqBalance(userId, currency), t)
  {
    hide Alone, BalanceKey;
    var one := GetCached(s, p, userId, currency);
    assert Live(one) == Live(s);
    if one.procs[p].Done? {
      t := one;
      AloneNow(t, p);
    } else {
      t := ReadAlone(one, p, userId, currency);
      assert one.procs[p := Done] == s.procs[p := Done];
    }
    assert Serves(s, p, ReqBalance(userId, currency), t);
    hide Serves, Live, GetCached;
    AloneVia(s, p, "", Threw, t);
  }

  /** Agreement of the concurrent machine with the serial specification, for every request. */
  lemma SoloRunServes(s: State, p: nat, r: Request) returns (t: State)
    requires p in s.procs && Some(s.procs[p]) == ArrivesAs(r) && s.locks == map[]
    ensures Alone(s, p, t) && Serves(s, p, r, t)
  {
    hide Alone, Serves, Served, Live;
    match r {
      case ReqCreateWallet(userId, currency, id, tag) => t := CreateWalletAlone(s, p, userId, currency, id, tag);
      case ReqRegister(userId, currency, id, tag) => t := EnsureAlone(s, p, userId, currency, id, tag);
      case ReqDeposit(dep, id, gateway) => t := DepositAlone(s, p, dep, id, gateway);
      case ReqTransfer(req, id) => t := TransferAlone(s, p, req, id);
      case ReqBalance(userId, currency) => t := BalanceAlone(s, p, userId, currency);
      case ReqWebhook(event, pick) =>
        if event.kind == SESSION_EXPIRED {
          t := ExpireAlone(s, p, event, pick);
        } else {
          t := SettleAlone(s, p, event, pick);
        }
    }
    if !r.ReqBalance? {
      ServedServes(s, p, r, t);
    }
  }

  /** Events that start no process have no effect in the serial specification either. */
  lemma OtherEventsIdle(sys: Sys, r: Request)
    requires ArrivesAs(r).None?
    ensures ServeCached(sys, r) == (sys, Ignored)
  {
    assert sys.cache - {} == sys.cache;
  }
}
