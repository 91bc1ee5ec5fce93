/** The converse of `SoloRuns`: however a request that runs alone to its end picks ids, rows and
    gateway answers and orders its cache deletions, what it does is what the serial
    specification says for one such choice. */
module EverySoloRun {
  import opened Rows
  import opened Operations
  import opened Protocol
  import opened Requests
  import opened BalanceCache
  import opened Progress
  import opened SoloRuns

  /** All locks are `p`'s. */
  predicate Mine(s: State, p: nat) {
    forall w :: w in s.locks ==> s.locks[w] == p
  }

  ghost predicate RecipientOk(db: Db, req: TransferRequest, toId: Id, toUserId: Id) {
    && FindByTag(db, req.toWalletTag) == Some(toId) && db.wallets[toId].currency == req.currency
    && db.wallets[toId].userId == toUserId != req.fromUserId
  }

  ghost predicate SenderOk(db: Db, req: TransferRequest, toId: Id, toUserId: Id, fromId: Id) {
    && RecipientOk(db, req, toId, toUserId) && !TransferKeyUsed(db, req.key)
    && FindWallet(db, req.fromUserId, req.currency) == Some(fromId)
  }

  predicate WalletsThere(db: Db, x: Running) {
    x.fromId in db.wallets && x.toId in db.wallets
  }

  /** What process `p` has found so far, none of which anybody else can have changed. */
  ghost predicate Ready(s: State, p: nat) {
    && p in s.procs && Mine(s, p) && (HeldBy(s.procs[p]) == {} ==> s.locks == map[])
    && match s.procs[p]
       case TFindExisting(req, toId, toUserId) => RecipientOk(s.db, req, toId, toUserId)
       case TFindSender(req, toId, toUserId) =>
         RecipientOk(s.db, req, toId, toUserId) && !TransferKeyUsed(s.db, req.key)
       case TCreate(req, toId, toUserId, fromId) =>
         SenderOk(s.db, req, toId, toUserId, fromId)
       case TLockFirst(x) => WalletsThere(s.db, x)
       case TLockSecond(x, firstRead) => WalletsThere(s.db, x) && firstRead == BalanceOf(s.db, x.First())
       case TCommit(x, firstRead, secondRead) =>
         WalletsThere(s.db, x) && firstRead == BalanceOf(s.db, x.First()) && secondRead == BalanceOf(s.db, x.Second())
       case SFindWallet(txId, tx) =>
         txId in s.db.transactions && s.db.transactions[txId] == tx && tx.status == Pending
       case SLock(_, _, walletId) => walletId in s.db.wallets
       case SCommit(_, _, walletId, read) => walletId in s.db.wallets && read == BalanceOf(s.db, walletId)
       case DFindWallet(dep) => !TransactionKeyUsed(s.db, dep.key)
       case DCreate(dep) =>
         !TransactionKeyUsed(s.db, dep.key) && FindWallet(s.db, dep.userId, dep.currency).Some?
       case WInsert(userId, currency, _) => FindWallet(s.db, userId, currency).None?
       case BRead(userId, currency) => BalanceKey(userId, currency) !in Live(s).cache
       case BFill(userId, currency, seen) =>
         BalanceKey(userId, currency) !in Live(s).cache
         && FindWallet(s.db, userId, currency) == Some(seen.walletId) && s.db.wallets[seen.walletId] == seen.wallet
       case _ => true
  }

  // ---- What the process will have done when it ends ----

  ghost predicate TransferServed(s: State, p: nat, req: TransferRequest, t: State) {
    exists id :: Served(s, p, InitiateTransfer(s.db, req, id).0, Invalidated(s.db, ReqTransfer(req, id)), t)
  }

  function Payment(providerRef: string): WebhookEvent {
    WebhookEvent(SESSION_COMPLETED, providerRef, PAID)
  }

  ghost predicate PaymentServed(s: State, p: nat, providerRef: string, t: State) {
    exists pick ::
      Served(s, p, HandleWebhook(s.db, Payment(providerRef), pick).0,
             Invalidated(s.db, ReqWebhook(Payment(providerRef), pick)), t)
  }

  ghost predicate SettlementServed(s: State, p: nat, id: Id, tx: Transaction, t: State)
    requires id in s.db.transactions
  {
    var (d, response) := SettleByRef(s.db, Some(id));
    Served(s, p, d, if response == Succeeded then {BalanceKey(tx.userId, tx.currency)} else {}, t)
  }

  ghost predicate FailureServed(s: State, p: nat, providerRef: string, reason: string, t: State) {
    exists pick :: Served(s, p, FailByRef(s.db, FindByRef(s.db, providerRef, pick), reason).0, {}, t)
  }

  ghost predicate DepositServed(s: State, p: nat, dep: DepositRequest, t: State) {
    exists id, gateway :: Served(s, p, StartDeposit(s.db, dep, id, gateway).0, {}, t)
  }

  ghost predicate GatewayServed(s: State, p: nat, id: Id, t: State) {
    exists gateway :: Served(s, p, AnsweredDb(s.db, id, gateway), {}, t)
  }

  ghost predicate WalletEnsured(s: State, p: nat, userId: Id, currency: string, tag: string, t: State) {
    exists id :: Served(s, p, EnsureWallet(s.db, userId, currency, id, tag).0, {}, t)
  }

  ghost predicate WalletCreated(s: State, p: nat, userId: Id, currency: string, tag: string, t: State) {
    exists id :: Served(s, p, CreateWallet(s.db, userId, currency, id, tag).0, {}, t)
  }

  ghost predicate Promised(s: State, p: nat, t: State)
    requires Ready(s, p)
  {
    match s.procs[p]
    case Done => t == s
    case Invalidate(keys) => t == s.(procs := s.procs[p := Done], cache := s.cache - keys)
    case TFindRecipient(req) => TransferServed(s, p, req, t)
    case TFindExisting(req, _, _) => TransferServed(s, p, req, t)
    case TFindSender(req, _, _) => TransferServed(s, p, req, t)
    case TCreate(req, _, _, _) => TransferServed(s, p, req, t)
    case TLockFirst(x) => Executed(s, p, OpExecute(x.id, x.row, x.fromId, x.toId), TransferKeys(x.row), t)
    case TLockSecond(x, _) => Executed(s, p, OpExecute(x.id, x.row, x.fromId, x.toId), TransferKeys(x.row), t)
    case TCommit(x, _, _) => Executed(s, p, OpExecute(x.id, x.row, x.fromId, x.toId), TransferKeys(x.row), t)
    case SFind(providerRef) => PaymentServed(s, p, providerRef, t)
    case SFindWallet(txId, tx) => SettlementServed(s, p, txId, tx, t)
    case SLock(txId, tx, w) => Executed(s, p, OpSettle(w, txId, tx), {BalanceKey(tx.userId, tx.currency)}, t)
    case SCommit(txId, tx, w, _) => Executed(s, p, OpSettle(w, txId, tx), {BalanceKey(tx.userId, tx.currency)}, t)
    case FFind(providerRef, reason) => FailureServed(s, p, providerRef, reason, t)
    case FWrite(txId, reason) => Served(s, p, FailTransaction(s.db, txId, reason), {}, t)
    case DFindExisting(dep) => DepositServed(s, p, dep, t)
    case DFindWallet(dep) => DepositServed(s, p, dep, t)
    case DCreate(dep) => DepositServed(s, p, dep, t)
    case DGateway(txId) => GatewayServed(s, p, txId, t)
    case DSetRef(txId, providerRef) => Served(s, p, SetProviderRef(s.db, txId, providerRef), {}, t)
    case WFind(userId, currency, tag) => WalletCreated(s, p, userId, currency, tag, t)
    case WEnsure(userId, currency, tag) => WalletEnsured(s, p, userId, currency, tag, t)
    case WInsert(userId, currency, tag) => WalletEnsured(s, p, userId, currency, tag, t)
    case BGet(userId, currency) => Serves(s, p, ReqBalance(userId, currency), t)
    case BRead(userId, currency) => Serves(s, p, ReqBalance(userId, currency), t)
    case BFill(userId, currency, _) => Serves(s, p, ReqBalance(userId, currency), t)
  }

  // ---- One step ----

  lemma ServedMoved(s: State, p: nat, proc: Proc, d: Db, keys: set<string>, t: State)
    requires Served(Moved(s, p, proc), p, d, keys, t)
    ensures Served(s, p, d, keys, t)
  {
    assert Moved(s, p, proc).procs[p := Done] == s.procs[p := Done];
  }

  lemma NothingServed(s: State, p: nat)
    requires s.locks == map[]
    ensures Served(s, p, s.db, {}, Moved(s, p, Done))
  {
    assert s.cache - {} == s.cache;
  }

  lemma TransferMoved(s: State, p: nat, proc: Proc, req: TransferRequest, t: State)
    requires TransferServed(Moved(s, p, proc), p, req, t)
    ensures TransferServed(s, p, req, t)
  {
    var one := Moved(s, p, proc);
    var id :| Served(one, p, InitiateTransfer(one.db, req, id).0, Invalidated(one.db, ReqTransfer(req, id)), t);
    ServedMoved(s, p, proc, InitiateTransfer(s.db, req, id).0, Invalidated(s.db, ReqTransfer(req, id)), t);
  }

  lemma TransferRefused(s: State, p: nat, req: TransferRequest)
    requires s.locks == map[] && InitiateTransfer(s.db, req, "").0 == s.db
    requires Invalidated(s.db, ReqTransfer(req, "")) == {}
    ensures TransferServed(s, p, req, Moved(s, p, Done))
  {
    NothingServed(s, p);
  }

  lemma RecipientStep(s: State, p: nat, req: TransferRequest, t: State)
    requires p in s.procs && s.locks == map[]
    ensures var one := FindRecipient(s, p, req);
      one.locks == map[] && p in one.procs
      && match one.procs[p]
         case Done => TransferServed(s, p, req, one)
         case TFindExisting(r, toId, toUserId) =>
           r == req && RecipientOk(one.db, req, toId, toUserId)
           && (TransferServed(one, p, req, t) ==> TransferServed(s, p, req, t))
         case _ => false
  {
    var one := FindRecipient(s, p, req);
    hide TransferServed;
    if one.procs[p].Done? {
      TransferRefused(s, p, req);
    } else if TransferServed(one, p, req, t) {
      hide InitiateTransfer, Invalidated;
      TransferMoved(s, p, one.procs[p], req, t);
    }
  }

  lemma ExistingStep(s: State, p: nat, req: TransferRequest, toId: Id, toUserId: Id, t: State)
    requires p in s.procs && s.locks == map[] && RecipientOk(s.db, req, toId, toUserId)
    ensures var one := FindExisting(s, p, req, toId, toUserId);
      one.locks == map[] && p in one.procs && one.db == s.db
      && if TransferKeyUsed(s.db, req.key) then one.procs[p] == Done && TransferServed(s, p, req, one)
         else one.procs[p] == TFindSender(req, toId, toUserId)
              && (TransferServed(one, p, req, t) ==> TransferServed(s, p, req, t))
  {
    var one := FindExisting(s, p, req, toId, toUserId);
    hide TransferServed, TransferKeyUsed;
    if TransferKeyUsed(s.db, req.key) {
      TransferRefused(s, p, req);
    } else if TransferServed(one, p, req, t) {
      hide InitiateTransfer, Invalidated;
      TransferMoved(s, p, one.procs[p], req, t);
    }
  }

  lemma SenderStep(s: State, p: nat, req: TransferRequest, toId: Id, toUserId: Id, t: State)
    requires p in s.procs && s.locks == map[]
    requires RecipientOk(s.db, req, toId, toUserId) && !TransferKeyUsed(s.db, req.key)
    ensures var one, from := FindSender(s, p, req, toId, toUserId), FindWallet(s.db, req.fromUserId, req.currency);
      one.locks == map[] && p in one.procs && one.db == s.db
      && if from.None? then one.procs[p] == Done && TransferServed(s, p, req, one)
         else one.procs[p] == TCreate(req, toId, toUserId, from.value)
              && (TransferServed(one, p, req, t) ==> TransferServed(s, p, req, t))
  {
    var one := FindSender(s, p, req, toId, toUserId);
    hide TransferServed, TransferKeyUsed;
    if one.procs[p].Done? {
      TransferRefused(s, p, req);
    } else if TransferServed(one, p, req, t) {
      hide InitiateTransfer, Invalidated;
      TransferMoved(s, p, one.procs[p], req, t);
    }
  }

  lemma CreateStep(s: State, p: nat, req: TransferRequest, toId: Id, toUserId: Id, fromId: Id, id: Id, t: State)
    requires p in s.procs && s.locks == map[] && SenderOk(s.db, req, toId, toUserId, fromId)
    ensures var one, row := InsertTransfer(s, p, req, toId, toUserId, fromId, id),
                            NewTransfer(req.fromUserId, toUserId, req.amount, req.currency, req.key);
      one.locks == map[] && p in one.procs
      && match one.procs[p]
         case Done => TransferServed(s, p, req, one)
         case TLockFirst(x) =>
           x == Running(id, row, fromId, toId) && WalletsThere(one.db, x)
           && (Executed(one, p, OpExecute(x.id, x.row, x.fromId, x.toId), TransferKeys(x.row), t)
               ==> TransferServed(s, p, req, t))
         case _ => false
  {
    var row := NewTransfer(req.fromUserId, toUserId, req.amount, req.currency, req.key);
    var one := InsertTransfer(s, p, req, toId, toUserId, fromId, id);
    assert Apply(s.db, OpCreateTransfer(id, row)) == CreateTransfer(s.db, id, row);
    assert one.locks == map[];
    hide Apply, Executed, TransferServed, TransferKeyUsed, Ready;
    if CreateTransfer(s.db, id, row).Err? {
      CreateRefused(s, p, req, toId, toUserId, fromId, id);
    } else if Executed(one, p, OpExecute(id, row, fromId, toId), TransferKeys(row), t) {
      CreatedServed(s, one, p, req, toId, toUserId, fromId, id, t);
    }
  }

  lemma CreateRefused(s: State, p: nat, req: TransferRequest, toId: Id, toUserId: Id, fromId: Id, id: Id)
    requires s.locks == map[] && SenderOk(s.db, req, toId, toUserId, fromId)
    requires CreateTransfer(s.db, id, NewTransfer(req.fromUserId, toUserId, req.amount, req.currency, req.key)).Err?
    ensures TransferServed(s, p, req, Stopped(s, p))
  {
    NothingServed(s, p);
    assert Stopped(s, p) == Moved(s, p, Done);
    assert Invalidated(s.db, ReqTransfer(req, id)) == {};
    assert Served(s, p, InitiateTransfer(s.db, req, id).0, Invalidated(s.db, ReqTransfer(req, id)), Stopped(s, p));
  }

  lemma CreatedServed(s: State, one: State, p: nat, req: TransferRequest, toId: Id, toUserId: Id, fromId: Id, id: Id,
          t: State)
    requires s.locks == map[] && SenderOk(s.db, req, toId, toUserId, fromId)
    requires var row := NewTransfer(req.fromUserId, toUserId, req.amount, req.currency, req.key);
      && CreateTransfer(s.db, id, row) == Ok(one.db)
      && one.cache == s.cache && one.answers == s.answers && one.now == s.now
      && one.procs[p := Done] == s.procs[p := Done]
      && Executed(one, p, OpExecute(id, row, fromId, toId), TransferKeys(row), t)
    ensures TransferServed(s, p, req, t)
  {
    hide Apply, CreateTransfer;
    assert s.cache - {} == s.cache;
    assert Served(s, p, InitiateTransfer(s.db, req, id).0, Invalidated(s.db, ReqTransfer(req, id)), t);
  }

  /** The steps of `initiateTransfer` up to the insert. */
  lemma TransferSteps(s: State, p: nat, id: Id, gateway: Gateway, t: State)
    requires Ready(s, p) && CanGo(s, p, id, gateway)
    requires var c := s.procs[p]; c.TFindRecipient? || c.TFindExisting? || c.TFindSender? || c.TCreate?
    ensures Ready(Next(s, p, id, gateway), p)
    ensures Promised(Next(s, p, id, gateway), p, t) ==> Promised(s, p, t)
  {
    hide FindRecipient, FindExisting, FindSender, InsertTransfer, RecipientOk, TransferKeyUsed, TransferServed,
      Executed, WalletsThere, FindWallet, TransferKeys;
    match s.procs[p]
    case TFindRecipient(req) => RecipientStep(s, p, req, t);
    case TFindExisting(req, toId, toUserId) => ExistingStep(s, p, req, toId, toUserId, t);
    case TFindSender(req, toId, toUserId) => SenderStep(s, p, req, toId, toUserId, t);
    case TCreate(req, toId, toUserId, fromId) => CreateStep(s, p, req, toId, toUserId, fromId, id, t);
  }

  // Database transactions

  lemma LockStep(s: State, p: nat, w: Id, proc: Proc, op: Op, keys: set<string>, t: State)
    requires p in s.procs && Mine(s, p) && w in s.db.wallets
    ensures var one := Lock(s, p, w, proc);
      Mine(one, p) && one.procs == s.procs[p := proc] && one.db == s.db
      && (Executed(one, p, op, keys, t) ==> Executed(s, p, op, keys, t))
  {
    assert Lock(s, p, w, proc).procs[p := Done] == s.procs[p := Done];
    hide Apply;
  }

  /** After a commit only the cache deletions are left; after an error nothing is. */
  lemma FinishStep(s: State, p: nat, op: Op, keys: set<string>, t: State)
    requires p in s.procs && Mine(s, p)
    ensures var one := Finish(s, p, op, Apply(s.db, op), Invalidate(keys));
      one.locks == map[] && p in one.procs
      && if Apply(s.db, op).Err? then one.procs[p] == Done && Executed(s, p, op, keys, one)
         else one.procs[p] == Invalidate(keys)
              && (t == one.(procs := one.procs[p := Done], cache := one.cache - keys) ==> Executed(s, p, op, keys, t))
  {
    hide Apply;
    var one := Finish(s, p, op, Apply(s.db, op), Invalidate(keys));
    assert one.locks == map[];
    assert one.procs[p := Done] == s.procs[p := Done];
  }

  lemma CommitStep(s: State, p: nat, x: Running)
    requires WalletsThere(s.db, x)
    ensures CommitRunning(s, p, x, BalanceOf(s.db, x.First()), BalanceOf(s.db, x.Second()))
         == Finish(s, p, OpExecute(x.id, x.row, x.fromId, x.toId),
                   Apply(s.db, OpExecute(x.id, x.row, x.fromId, x.toId)), Invalidate(TransferKeys(x.row)))
  {
    LockOrderSorted(x.fromId, x.toId);
    ExecutesCurrent(s.db, x);
    hide CommitTransfer, Apply;
  }

  lemma SettleStep(s: State, p: nat, txId: Id, tx: Transaction, w: Id)
    requires w in s.db.wallets
    ensures CommitDeposit(s, p, txId, tx, w, BalanceOf(s.db, w))
         == Finish(s, p, OpSettle(w, txId, tx), Apply(s.db, OpSettle(w, txId, tx)),
                   Invalidate({BalanceKey(tx.userId, tx.currency)}))
  {
    hide CommitSettlement;
  }

  lemma ExecutionSteps(s: State, p: nat, id: Id, gateway: Gateway, t: State)
    requires Ready(s, p) && CanGo(s, p, id, gateway)
    requires s.procs[p].TLockFirst? || s.procs[p].TLockSecond?
    ensures Ready(Next(s, p, id, gateway), p)
    ensures Promised(Next(s, p, id, gateway), p, t) ==> Promised(s, p, t)
  {
    hide Lock, Executed, Apply, TransferKeys, BalanceOf;
    match s.procs[p]
    case TLockFirst(x) =>
      LockStep(s, p, x.First(), TLockSecond(x, BalanceOf(s.db, x.First())),
               OpExecute(x.id, x.row, x.fromId, x.toId), TransferKeys(x.row), t);
    case TLockSecond(x, firstRead) =>
      LockStep(s, p, x.Second(), TCommit(x, firstRead, BalanceOf(s.db, x.Second())),
               OpExecute(x.id, x.row, x.fromId, x.toId), TransferKeys(x.row), t);
  }

  lemma CommitSteps(s: State, p: nat, id: Id, gateway: Gateway, t: State)
    requires Ready(s, p) && CanGo(s, p, id, gateway) && s.procs[p].TCommit?
    ensures Ready(Next(s, p, id, gateway), p)
    ensures Promised(Next(s, p, id, gateway), p, t) ==> Promised(s, p, t)
  {
    hide CommitRunning, Finish, Executed, Apply, TransferKeys, BalanceOf;
    var x := s.procs[p].x;
    CommitStep(s, p, x);
    FinishStep(s, p, OpExecute(x.id, x.row, x.fromId, x.toId), TransferKeys(x.row), t);
  }

  lemma SettlementSteps(s: State, p: nat, id: Id, gateway: Gateway, t: State)
    requires Ready(s, p) && CanGo(s, p, id, gateway)
    requires var c := s.procs[p]; c.SLock? || c.SCommit?
    ensures Ready(Next(s, p, id, gateway), p)
    ensures Promised(Next(s, p, id, gateway), p, t) ==> Promised(s, p, t)
  {
    hide Lock, CommitDeposit, Finish, Executed, Apply, BalanceKey, BalanceOf;
    match s.procs[p]
    case SLock(txId, tx, w) =>
      LockStep(s, p, w, SCommit(txId, tx, w, BalanceOf(s.db, w)), OpSettle(w, txId, tx),
               {BalanceKey(tx.userId, tx.currency)}, t);
    case SCommit(txId, tx, w, _) =>
      SettleStep(s, p, txId, tx, w);
      FinishStep(s, p, OpSettle(w, txId, tx), {BalanceKey(tx.userId, tx.currency)}, t);
  }

  // Webhooks

  lemma PaymentStep(s: State, p: nat, providerRef: string, id: Id, t: State)
    requires p in s.procs && s.locks == map[] && PickOk(s.db, providerRef, id)
    ensures var tx := TransactionAt(s.db, id);
      var one := IfPending(s, p, providerRef, id, SFindWallet(id, tx));
      one.locks == map[] && p in one.procs && one.db == s.db
      && if HasRef(s.db, id, providerRef) && tx.status == Pending
         then one.procs[p] == SFindWallet(id, tx) && s.db.transactions[id] == tx
              && (SettlementServed(one, p, id, tx, t) ==> PaymentServed(s, p, providerRef, t))
         else one.procs[p] == Done && PaymentServed(s, p, providerRef, one)
  {
    var tx := TransactionAt(s.db, id);
    var event := Payment(providerRef);
    var one := IfPending(s, p, providerRef, id, SFindWallet(id, tx));
    hide Apply, BalanceKey;
    if HasRef(s.db, id, providerRef) && tx.status == Pending {
      var (d, response) := SettleByRef(s.db, Some(id));
      assert HandleWebhook(s.db, event, id) == (d, response);
      hide SettleByRef;
      if SettlementServed(one, p, id, tx, t) {
        ServedMoved(s, p, SFindWallet(id, tx), d, Invalidated(s.db, ReqWebhook(event, id)), t);
      }
    } else {
      NothingServed(s, p);
      assert Served(s, p, HandleWebhook(s.db, event, id).0, Invalidated(s.db, ReqWebhook(event, id)), one);
    }
  }

  lemma SettlementStep(s: State, p: nat, id: Id, tx: Transaction, t: State)
    requires p in s.procs && s.locks == map[]
    requires id in s.db.transactions && s.db.transactions[id] == tx && tx.status == Pending
    ensures var one, w := FindSettlementWallet(s, p, id, tx), FindWallet(s.db, tx.userId, tx.currency);
      one.locks == map[] && p in one.procs && one.db == s.db
      && if w.None? then one.procs[p] == Done && SettlementServed(s, p, id, tx, one)
         else one.procs[p] == SLock(id, tx, w.value)
              && (Executed(one, p, OpSettle(w.value, id, tx), {BalanceKey(tx.userId, tx.currency)}, t)
                  ==> SettlementServed(s, p, id, tx, t))
  {
    var one := FindSettlementWallet(s, p, id, tx);
    assert s.cache - {} == s.cache;
    hide Apply, BalanceKey;
    if one.procs[p].Done? {
      NothingServed(s, p);
    } else {
      assert one.procs[p := Done] == s.procs[p := Done];
    }
  }

  lemma FailureStep(s: State, p: nat, providerRef: string, reason: string, id: Id, t: State)
    requires p in s.procs && s.locks == map[] && PickOk(s.db, providerRef, id)
    ensures var one := IfPending(s, p, providerRef, id, FWrite(id, reason));
      one.locks == map[] && p in one.procs && one.db == s.db
      && match one.procs[p]
         case Done => FailureServed(s, p, providerRef, reason, one)
         case FWrite(txId, why) =>
           txId == id && why == reason
           && (Served(one, p, FailTransaction(s.db, id, reason), {}, t) ==> FailureServed(s, p, providerRef, reason, t))
         case _ => false
  {
    var one := IfPending(s, p, providerRef, id, FWrite(id, reason));
    if one.procs[p].Done? {
      NothingServed(s, p);
      assert Served(s, p, FailByRef(s.db, FindByRef(s.db, providerRef, id), reason).0, {}, one);
    } else {
      assert FailByRef(s.db, FindByRef(s.db, providerRef, id), reason).0 == FailTransaction(s.db, id, reason);
      if Served(one, p, FailTransaction(s.db, id, reason), {}, t) {
        ServedMoved(s, p, FWrite(id, reason), FailTransaction(s.db, id, reason), {}, t);
      }
    }
  }

  lemma StatementStep(s: State, p: nat, op: Op)
    requires p in s.procs && s.locks == map[]
    ensures var one := Statement(s, p, op, Done);
      one.locks == map[] && one.procs == s.procs[p := Done]
      && Served(s, p, if Apply(s.db, op).Ok? then Apply(s.db, op).value else s.db, {}, one)
  {
    hide Apply;
    assert s.cache - {} == s.cache && Statement(s, p, op, Done).locks == map[];
  }

  lemma PaymentSteps(s: State, p: nat, id: Id, gateway: Gateway, t: State)
    requires Ready(s, p) && CanGo(s, p, id, gateway) && (s.procs[p].SFind? || s.procs[p].SFindWallet?)
    ensures Ready(Next(s, p, id, gateway), p)
    ensures Promised(Next(s, p, id, gateway), p, t) ==> Promised(s, p, t)
  {
    hide IfPending, FindSettlementWallet, PaymentServed, SettlementServed, Executed, FindWallet, BalanceKey,
        TransactionAt;
    match s.procs[p]
    case SFind(providerRef) => PaymentStep(s, p, providerRef, id, t);
    case SFindWallet(txId, tx) => SettlementStep(s, p, txId, tx, t);
  }

  lemma FailureSteps(s: State, p: nat, id: Id, gateway: Gateway, t: State)
    requires Ready(s, p) && CanGo(s, p, id, gateway) && (s.procs[p].FFind? || s.procs[p].FWrite?)
    ensures Ready(Next(s, p, id, gateway), p)
    ensures Promised(Next(s, p, id, gateway), p, t) ==> Promised(s, p, t)
  {
    hide IfPending, Statement, FailureServed, Served, FailTransaction;
    match s.procs[p]
    case FFind(providerRef, reason) => FailureStep(s, p, providerRef, reason, id, t);
    case FWrite(txId, reason) => StatementStep(s, p, OpFail(txId, reason));
  }

  // Deposits

  lemma DepositMoved(s: State, p: nat, proc: Proc, dep: DepositRequest, t: State)
    requires DepositServed(Moved(s, p, proc), p, dep, t)
    ensures DepositServed(s, p, dep, t)
  {
    hide StartDeposit;
    var one := Moved(s, p, proc);
    var id, gateway :| Served(one, p, StartDeposit(one.db, dep, id, gateway).0, {}, t);
    ServedMoved(s, p, proc, StartDeposit(s.db, dep, id, gateway).0, {}, t);
  }

  lemma DepositRefused(s: State, p: nat, dep: DepositRequest, id: Id)
    requires s.locks == map[] && StartDeposit(s.db, dep, id, Threw).0 == s.db
    ensures DepositServed(s, p, dep, Moved(s, p, Done))
  {
    hide StartDeposit;
    NothingServed(s, p);
  }

  lemma CreateDepositStep(s: State, p: nat, dep: DepositRequest, id: Id, t: State)
    requires p in s.procs && s.locks == map[]
    requires !TransactionKeyUsed(s.db, dep.key) && FindWallet(s.db, dep.userId, dep.currency).Some?
    ensures var one := Statement(s, p, OpCreateTransaction(id, dep.userId, dep.amount, dep.currency, dep.key),
        DGateway(id));
      one.locks == map[] && p in one.procs
      && match one.procs[p]
         case Done => DepositServed(s, p, dep, one)
         case DGateway(txId) => txId == id && (GatewayServed(one, p, id, t) ==> DepositServed(s, p, dep, t))
         case _ => false
  {
    var op := OpCreateTransaction(id, dep.userId, dep.amount, dep.currency, dep.key);
    var one := Statement(s, p, op, DGateway(id));
    assert one.locks == map[];
    hide TransactionKeyUsed, FindWallet;
    if Apply(s.db, op).Err? {
      assert one == Moved(s, p, Done);
      DepositRefused(s, p, dep, id);
    } else if GatewayServed(one, p, id, t) {
      var gateway :| Served(one, p, AnsweredDb(one.db, id, gateway), {}, t);
      assert StartDeposit(s.db, dep, id, gateway).0 == AnsweredDb(one.db, id, gateway);
      assert one.procs[p := Done] == s.procs[p := Done];
      hide StartDeposit, AnsweredDb;
      assert Served(s, p, StartDeposit(s.db, dep, id, gateway).0, {}, t);
    }
  }

  lemma GatewayStep(s: State, p: nat, id: Id, gateway: Gateway, t: State)
    requires p in s.procs && s.locks == map[]
    ensures var one := Moved(s, p, AfterGateway(id, gateway));
      match one.procs[p]
      case Done => GatewayServed(s, p, id, one)
      case FWrite(txId, reason) =>
        Served(one, p, FailTransaction(s.db, txId, reason), {}, t) ==> GatewayServed(s, p, id, t)
      case DSetRef(txId, providerRef) =>
        Served(one, p, SetProviderRef(s.db, txId, providerRef), {}, t) ==> GatewayServed(s, p, id, t)
      case _ => false
  {
    var one := Moved(s, p, AfterGateway(id, gateway));
    NothingServed(s, p);
    if Served(one, p, AnsweredDb(s.db, id, gateway), {}, t) {
      ServedMoved(s, p, AfterGateway(id, gateway), AnsweredDb(s.db, id, gateway), {}, t);
    }
  }

  lemma DuplicateStep(s: State, p: nat, dep: DepositRequest, t: State)
    requires p in s.procs && s.locks == map[]
    ensures TransactionKeyUsed(s.db, dep.key) ==> DepositServed(s, p, dep, Moved(s, p, Done))
    ensures DepositServed(Moved(s, p, DFindWallet(dep)), p, dep, t) ==> DepositServed(s, p, dep, t)
  {
    hide DepositServed, TransactionKeyUsed;
    if TransactionKeyUsed(s.db, dep.key) {
      DepositRefused(s, p, dep, "");
    }
    if DepositServed(Moved(s, p, DFindWallet(dep)), p, dep, t) {
      DepositMoved(s, p, DFindWallet(dep), dep, t);
    }
  }

  lemma OwnWalletStep(s: State, p: nat, dep: DepositRequest, t: State)
    requires p in s.procs && s.locks == map[] && !TransactionKeyUsed(s.db, dep.key)
    ensures FindWallet(s.db, dep.userId, dep.currency).None? ==> DepositServed(s, p, dep, Moved(s, p, Done))
    ensures DepositServed(Moved(s, p, DCreate(dep)), p, dep, t) ==> DepositServed(s, p, dep, t)
  {
    hide DepositServed, TransactionKeyUsed, FindWallet;
    if FindWallet(s.db, dep.userId, dep.currency).None? {
      DepositRefused(s, p, dep, "");
    }
    if DepositServed(Moved(s, p, DCreate(dep)), p, dep, t) {
      DepositMoved(s, p, DCreate(dep), dep, t);
    }
  }

  lemma RequestedSteps(s: State, p: nat, id: Id, gateway: Gateway, t: State)
    requires Ready(s, p) && CanGo(s, p, id, gateway) && (s.procs[p].DFindExisting? || s.procs[p].DFindWallet?)
    ensures Ready(Next(s, p, id, gateway), p)
    ensures Promised(Next(s, p, id, gateway), p, t) ==> Promised(s, p, t)
  {
    hide DepositServed, TransactionKeyUsed, FindWallet;
    match s.procs[p]
    case DFindExisting(dep) => DuplicateStep(s, p, dep, t);
    case DFindWallet(dep) => OwnWalletStep(s, p, dep, t);
  }

  lemma CreationSteps(s: State, p: nat, id: Id, gateway: Gateway, t: State)
    requires Ready(s, p) && CanGo(s, p, id, gateway) && s.procs[p].DCreate?
    ensures Ready(Next(s, p, id, gateway), p)
    ensures Promised(Next(s, p, id, gateway), p, t) ==> Promised(s, p, t)
  {
    hide Statement, DepositServed, GatewayServed, TransactionKeyUsed, FindWallet;
    CreateDepositStep(s, p, s.procs[p].dep, id, t);
  }

  lemma AnsweredSteps(s: State, p: nat, id: Id, gateway: Gateway, t: State)
    requires Ready(s, p) && CanGo(s, p, id, gateway) && (s.procs[p].DGateway? || s.procs[p].DSetRef?)
    ensures Ready(Next(s, p, id, gateway), p)
    ensures Promised(Next(s, p, id, gateway), p, t) ==> Promised(s, p, t)
  {
    hide Statement, GatewayServed, Served, FailTransaction, SetProviderRef;
    match s.procs[p]
    case DGateway(txId) => GatewayStep(s, p, txId, gateway, t);
    case DSetRef(txId, providerRef) => StatementStep(s, p, OpSetProviderRef(txId, providerRef));
  }

  // Wallets

  lemma EnsureStep(s: State, p: nat, userId: Id, currency: string, tag: string, t: State)
    requires p in s.procs && s.locks == map[]
    ensures var found, one := FindWallet(s.db, userId, currency), Moved(s, p, WInsert(userId, currency, tag));
      && (found.Some? ==> WalletEnsured(s, p, userId, currency, tag, Moved(s, p, Done)))
      && (found.None? && WalletEnsured(one, p, userId, currency, tag, t)
          ==> WalletEnsured(s, p, userId, currency, tag, t))
  {
    NothingServed(s, p);
    if FindWallet(s.db, userId, currency).Some? {
      assert Served(s, p, EnsureWallet(s.db, userId, currency, "", tag).0, {}, Moved(s, p, Done));
    }
    hide EnsureWallet;
    EnsuredMoved(s, p, WInsert(userId, currency, tag), userId, currency, tag, t);
  }

  lemma EnsuredMoved(s: State, p: nat, proc: Proc, userId: Id, currency: string, tag: string, t: State)
    ensures WalletEnsured(Moved(s, p, proc), p, userId, currency, tag, t)
        ==> WalletEnsured(s, p, userId, currency, tag, t)
  {
    hide EnsureWallet;
    var one := Moved(s, p, proc);
    if id :| Served(one, p, EnsureWallet(one.db, userId, currency, id, tag).0, {}, t) {
      ServedMoved(s, p, proc, EnsureWallet(s.db, userId, currency, id, tag).0, {}, t);
    }
  }

  lemma FindStep(s: State, p: nat, userId: Id, currency: string, tag: string, t: State)
    requires p in s.procs && s.locks == map[]
    ensures var found, one := FindWallet(s.db, userId, currency), Moved(s, p, WEnsure(userId, currency, tag));
      && (found.Some? ==> WalletCreated(s, p, userId, currency, tag, Moved(s, p, Done)))
      && (found.None? && WalletEnsured(one, p, userId, currency, tag, t)
          ==> WalletCreated(s, p, userId, currency, tag, t))
  {
    hide EnsureWallet;
    NothingServed(s, p);
    var one := Moved(s, p, WEnsure(userId, currency, tag));
    if FindWallet(s.db, userId, currency).Some? {
      assert Served(s, p, CreateWallet(s.db, userId, currency, "", tag).0, {}, Moved(s, p, Done));
    } else if id :| Served(one, p, EnsureWallet(one.db, userId, currency, id, tag).0, {}, t) {
      ServedMoved(s, p, WEnsure(userId, currency, tag), EnsureWallet(s.db, userId, currency, id, tag).0, {}, t);
      assert Served(s, p, CreateWallet(s.db, userId, currency, id, tag).0, {}, t);
    }
  }

  lemma InsertStep(s: State, p: nat, userId: Id, currency: string, tag: string, id: Id)
    requires p in s.procs && s.locks == map[] && FindWallet(s.db, userId, currency).None?
    ensures var one := Statement(s, p, OpInsertWallet(id, userId, currency, tag), Done);
      one.locks == map[] && one.procs == s.procs[p := Done] && WalletEnsured(s, p, userId, currency, tag, one)
  {
    hide InsertWallet, Statement;
    var op := OpInsertWallet(id, userId, currency, tag);
    StatementStep(s, p, op);
    assert EnsureWallet(s.db, userId, currency, id, tag).0
        == if Apply(s.db, op).Ok? then Apply(s.db, op).value else s.db;
  }

  lemma InsertionSteps(s: State, p: nat, id: Id, gateway: Gateway, t: State)
    requires Ready(s, p) && CanGo(s, p, id, gateway) && s.procs[p].WInsert?
    ensures Ready(Next(s, p, id, gateway), p)
    ensures Promised(Next(s, p, id, gateway), p, t) ==> Promised(s, p, t)
  {
    hide Statement, WalletEnsured, FindWallet;
    InsertStep(s, p, s.procs[p].userId, s.procs[p].currency, s.procs[p].tag, id);
  }

  lemma WalletSteps(s: State, p: nat, id: Id, gateway: Gateway, t: State)
    requires Ready(s, p) && CanGo(s, p, id, gateway) && s.procs[p].WFind?
    ensures Ready(Next(s, p, id, gateway), p)
    ensures Promised(Next(s, p, id, gateway), p, t) ==> Promised(s, p, t)
  {
    hide WalletEnsured, WalletCreated, FindWallet;
    FindStep(s, p, s.procs[p].userId, s.procs[p].currency, s.procs[p].tag, t);
  }

  lemma EnsuringSteps(s: State, p: nat, id: Id, gateway: Gateway, t: State)
    requires Ready(s, p) && CanGo(s, p, id, gateway) && s.procs[p].WEnsure?
    ensures Ready(Next(s, p, id, gateway), p)
    ensures Promised(Next(s, p, id, gateway), p, t) ==> Promised(s, p, t)
  {
    hide WalletEnsured, FindWallet;
    EnsureStep(s, p, s.procs[p].userId, s.procs[p].currency, s.procs[p].tag, t);
  }

  // The cache

  lemma DropStep(s: State, p: nat, keys: set<string>, key: string, t: State)
    requires p in s.procs && s.procs[p] == Invalidate(keys) && s.locks == map[] && (keys != {} ==> key in keys)
    ensures var one := DropKey(s, p, keys, key);
      one.locks == map[] && p in one.procs
      && match one.procs[p]
         case Done => one == s.(procs := s.procs[p := Done], cache := s.cache - keys)
         case Invalidate(rest) =>
           t == one.(procs := one.procs[p := Done], cache := one.cache - rest)
           ==> t == s.(procs := s.procs[p := Done], cache := s.cache - keys)
         case _ => false
  {
    var one := DropKey(s, p, keys, key);
    if keys == {} {
      assert s.cache - keys == s.cache;
    } else {
      assert one.cache - (keys - {key}) == s.cache - keys;
      assert one.procs[p := Done] == s.procs[p := Done];
    }
  }

  lemma ServesMoved(s: State, p: nat, proc: Proc, userId: Id, currency: string, t: State)
    ensures Serves(Moved(s, p, proc), p, ReqBalance(userId, currency), t)
        ==> Serves(s, p, ReqBalance(userId, currency), t)
  {
    hide ServeCached;
    assert Live(Moved(s, p, proc)) == Live(s);
    assert Moved(s, p, proc).procs[p := Done] == s.procs[p := Done];
  }

  lemma GetStep(s: State, p: nat, userId: Id, currency: string, t: State)
    requires p in s.procs && s.locks == map[]
    ensures var one := GetCached(s, p, userId, currency);
      one.locks == map[] && p in one.procs
      && if BalanceKey(userId, currency) in Live(s).cache
         then one.procs[p] == Done && Serves(s, p, ReqBalance(userId, currency), one)
         else one == Moved(s, p, BRead(userId, currency)) && Live(one) == Live(s)
              && (Serves(one, p, ReqBalance(userId, currency), t) ==> Serves(s, p, ReqBalance(userId, currency), t))
  {
    hide BalanceKey;
    var one := GetCached(s, p, userId, currency);
    assert Live(one) == Live(s);
    hide Live;
    ServesMoved(s, p, BRead(userId, currency), userId, currency, t);
  }

  lemma ReadStep(s: State, p: nat, userId: Id, currency: string, t: State)
    requires p in s.procs && s.locks == map[] && BalanceKey(userId, currency) !in Live(s).cache
    ensures var one, w := ReadBalance(s, p, userId, currency), FindWallet(s.db, userId, currency);
      one.locks == map[] && p in one.procs && Live(one) == Live(s) && one.db == s.db
      && match one.procs[p]
         case Done => Serves(s, p, ReqBalance(userId, currency), one)
         case BFill(u, c, seen) =>
           u == userId && c == currency && w == Some(seen.walletId) && s.db.wallets[seen.walletId] == seen.wallet
           && (Serves(one, p, ReqBalance(userId, currency), t) ==> Serves(s, p, ReqBalance(userId, currency), t))
         case _ => false
  {
    hide BalanceKey;
    var one := ReadBalance(s, p, userId, currency);
    assert Live(one) == Live(s);
    hide Live;
    ServesMoved(s, p, one.procs[p], userId, currency, t);
  }

  lemma FillStep(s: State, p: nat, userId: Id, currency: string, seen: Seen)
    requires p in s.procs && s.locks == map[] && BalanceKey(userId, currency) !in Live(s).cache
    requires FindWallet(s.db, userId, currency) == Some(seen.walletId) && s.db.wallets[seen.walletId] == seen.wallet
    ensures var one := FillCache(s, p, userId, currency, seen);
      one.locks == map[] && one.procs == s.procs[p := Done] && Serves(s, p, ReqBalance(userId, currency), one)
  {
    FillLive(s, p, userId, currency, seen);
    assert Live(FillCache(s, p, userId, currency, seen)).db == Live(s).db == s.db;
    hide BalanceKey, Live;
  }

  lemma DeletionSteps(s: State, p: nat, id: Id, gateway: Gateway, t: State)
    requires Ready(s, p) && CanGo(s, p, id, gateway) && s.procs[p].Invalidate?
    ensures Ready(Next(s, p, id, gateway), p)
    ensures Promised(Next(s, p, id, gateway), p, t) ==> Promised(s, p, t)
  {
    hide DropKey;
    DropStep(s, p, s.procs[p].keys, id, t);
  }

  lemma BalanceSteps(s: State, p: nat, id: Id, gateway: Gateway, t: State)
    requires Ready(s, p) && CanGo(s, p, id, gateway) && s.procs[p].BGet?
    ensures Ready(Next(s, p, id, gateway), p)
    ensures Promised(Next(s, p, id, gateway), p, t) ==> Promised(s, p, t)
  {
    hide GetCached, Serves, Live, BalanceKey;
    GetStep(s, p, s.procs[p].userId, s.procs[p].currency, t);
  }

  lemma MissSteps(s: State, p: nat, id: Id, gateway: Gateway, t: State)
    requires Ready(s, p) && CanGo(s, p, id, gateway) && (s.procs[p].BRead? || s.procs[p].BFill?)
    ensures Ready(Next(s, p, id, gateway), p)
    ensures Promised(Next(s, p, id, gateway), p, t) ==> Promised(s, p, t)
  {
    hide ReadBalance, FillCache, Serves, Live, BalanceKey, FindWallet;
    match s.procs[p]
    case BRead(userId, currency) => ReadStep(s, p, userId, currency, t);
    case BFill(userId, currency, seen) => FillStep(s, p, userId, currency, seen);
  }

  // ---- Whole runs ----

  lemma EveryStep(s: State, p: nat, id: Id, gateway: Gateway, t: State)
    requires Ready(s, p) && CanGo(s, p, id, gateway)
    ensures Ready(Next(s, p, id, gateway), p)
    ensures Promised(Next(s, p, id, gateway), p, t) ==> Promised(s, p, t)
  {
    hide Ready, Promised, Next;
    match s.procs[p] {
      case TFindRecipient(_) => TransferSteps(s, p, id, gateway, t);
      case TFindExisting(_, _, _) => TransferSteps(s, p, id, gateway, t);
      case TFindSender(_, _, _) => TransferSteps(s, p, id, gateway, t);
      case TCreate(_, _, _, _) => TransferSteps(s, p, id, gateway, t);
      case TLockFirst(_) => ExecutionSteps(s, p, id, gateway, t);
      case TLockSecond(_, _) => ExecutionSteps(s, p, id, gateway, t);
      case TCommit(_, _, _) => CommitSteps(s, p, id, gateway, t);
      case SFind(_) => PaymentSteps(s, p, id, gateway, t);
      case SFindWallet(_, _) => PaymentSteps(s, p, id, gateway, t);
      case SLock(_, _, _) => SettlementSteps(s, p, id, gateway, t);
      case SCommit(_, _, _, _) => SettlementSteps(s, p, id, gateway, t);
      case FFind(_, _) => FailureSteps(s, p, id, gateway, t);
      case FWrite(_, _) => FailureSteps(s, p, id, gateway, t);
      case DFindExisting(_) => RequestedSteps(s, p, id, gateway, t);
      case DFindWallet(_) => RequestedSteps(s, p, id, gateway, t);
      case DCreate(_) => CreationSteps(s, p, id, gateway, t);
      case DGateway(_) => AnsweredSteps(s, p, id, gateway, t);
      case DSetRef(_, _) => AnsweredSteps(s, p, id, gateway, t);
      case WFind(_, _, _) => WalletSteps(s, p, id, gateway, t);
      case WEnsure(_, _, _) => EnsuringSteps(s, p, id, gateway, t);
      case WInsert(_, _, _) => InsertionSteps(s, p, id, gateway, t);
      case Invalidate(_) => DeletionSteps(s, p, id, gateway, t);
      case BGet(_, _) => BalanceSteps(s, p, id, gateway, t);
      case _ => MissSteps(s, p, id, gateway, t);
    }
  }

  lemma RunUncons(s: State, run: seq<Action>)
    requires run != [] && Continue(s, run).Some?
    ensures Enabled(s, run[0]) && Continue(s, run) == Continue(Step(s, run[0]), run[1..])
  {
    FirstEnabled(s, run);
    assert run == [run[0]] + run[1..];
    ContinueCons(s, run[0], run[1..]);
  }

  lemma {:induction false} FirstEnabled(s: State, run: seq<Action>)
    requires run != [] && Continue(s, run).Some?
    ensures Enabled(s, run[0])
  {
    hide Enabled, Step;
    var before := run[..|run| - 1];
    if before == [] {
      assert Continue(s, before) == Some(s);
    } else {
      FirstEnabled(s, before);
    }
  }

  lemma {:induction false} RunPromised(s: State, p: nat, run: seq<Action>, t: State)
    requires Ready(s, p) && OnlyOf(run, p) && Continue(s, run) == Some(t) && p in t.procs && t.procs[p] == Done
    ensures Promised(s, p, t)
    decreases |run|
  {
    if run == [] {
    } else {
      var a := run[0];
      assert a.Go? && a.p == p;
      RunUncons(s, run);
      assert OnlyOf(run[1..], p) by { assert forall i :: 0 <= i < |run[1..]| ==> run[1..][i] == run[i + 1]; }
      hide Ready, Promised, Next, CanGo, OnlyOf;
      EveryStep(s, p, a.id, a.gateway, t);
      RunPromised(Next(s, p, a.id, a.gateway), p, run[1..], t);
    }
  }

  /** Some request that arrives as `proc` and is served serially takes `s` to `t`. */
  ghost predicate ServedBySome(proc: Proc, s: State, p: nat, t: State) {
    exists r :: ArrivesAs(r) == Some(proc) && Serves(s, p, r, t)
  }

  /** Every solo run to the end of a request, from a state without locks, serves that request as
      the serial specification does, for some choice of new ids, rows picked and gateway answers. */
  lemma EverySoloRunServes(s: State, p: nat, run: seq<Action>, t: State)
    requires p in s.procs && s.locks == map[] && exists r :: ArrivesAs(r) == Some(s.procs[p])
    requires OnlyOf(run, p) && Continue(s, run) == Some(t) && p in t.procs && t.procs[p] == Done
    ensures ServedBySome(s.procs[p], s, p, t)
  {
    hide Continue, OnlyOf;
    RunPromised(s, p, run, t);
    PromisedServed(s, p, t);
  }

  lemma PromisedServed(s: State, p: nat, t: State)
    requires p in s.procs && Ready(s, p) && Promised(s, p, t) && exists r :: ArrivesAs(r) == Some(s.procs[p])
    ensures ServedBySome(s.procs[p], s, p, t)
  {
    hide Ready, Serves, TransferServed, PaymentServed, FailureServed, DepositServed, WalletCreated, WalletEnsured;
    var r :| ArrivesAs(r) == Some(s.procs[p]);
    match r {
      case ReqTransfer(req, _) => TransferFor(s, p, req, t);
      case ReqWebhook(event, _) =>
        if event.kind == SESSION_EXPIRED {
          ExpiryFor(s, p, event.sessionId, t);
        } else {
          PaymentFor(s, p, event.sessionId, t);
        }
      case ReqDeposit(dep, _, _) => DepositFor(s, p, dep, t);
      case ReqCreateWallet(userId, currency, _, tag) => CreationFor(s, p, userId, currency, tag, t);
      case ReqRegister(userId, currency, _, tag) => RegistrationFor(s, p, userId, currency, tag, t);
      case ReqBalance(_, _) =>
    }
  }

  lemma TransferFor(s: State, p: nat, req: TransferRequest, t: State)
    requires TransferServed(s, p, req, t)
    ensures ServedBySome(TFindRecipient(req), s, p, t)
  {
    hide InitiateTransfer, Invalidated, Served, Serves;
    var id :| Served(s, p, InitiateTransfer(s.db, req, id).0, Invalidated(s.db, ReqTransfer(req, id)), t);
    ServedServes(s, p, ReqTransfer(req, id), t);
  }

  lemma PaymentFor(s: State, p: nat, providerRef: string, t: State)
    requires PaymentServed(s, p, providerRef, t)
    ensures ServedBySome(SFind(providerRef), s, p, t)
  {
    hide HandleWebhook, Invalidated, Served, Serves;
    var event := Payment(providerRef);
    var pick :| Served(s, p, HandleWebhook(s.db, event, pick).0, Invalidated(s.db, ReqWebhook(event, pick)), t);
    ServedServes(s, p, ReqWebhook(event, pick), t);
  }

  lemma ExpiryFor(s: State, p: nat, providerRef: string, t: State)
    requires FailureServed(s, p, providerRef, EXPIRY_REASON, t)
    ensures ServedBySome(FFind(providerRef, EXPIRY_REASON), s, p, t)
  {
    hide Served, Serves, FailByRef;
    var event := WebhookEvent(SESSION_EXPIRED, providerRef, "");
    var pick :| Served(s, p, FailByRef(s.db, FindByRef(s.db, providerRef, pick), EXPIRY_REASON).0, {}, t);
    ServedServes(s, p, ReqWebhook(event, pick), t);
  }

  lemma DepositFor(s: State, p: nat, dep: DepositRequest, t: State)
    requires DepositServed(s, p, dep, t)
    ensures ServedBySome(DFindExisting(dep), s, p, t)
  {
    hide StartDeposit, Served, Serves;
    var id, gateway :| Served(s, p, StartDeposit(s.db, dep, id, gateway).0, {}, t);
    ServedServes(s, p, ReqDeposit(dep, id, gateway), t);
  }

  lemma CreationFor(s: State, p: nat, userId: Id, currency: string, tag: string, t: State)
    requires WalletCreated(s, p, userId, currency, tag, t)
    ensures ServedBySome(WFind(userId, currency, tag), s, p, t)
  {
    hide CreateWallet, Served, Serves;
    var id :| Served(s, p, CreateWallet(s.db, userId, currency, id, tag).0, {}, t);
    ServedServes(s, p, ReqCreateWallet(userId, currency, id, tag), t);
  }

  lemma RegistrationFor(s: State, p: nat, userId: Id, currency: string, tag: string, t: State)
    requires WalletEnsured(s, p, userId, currency, tag, t)
    ensures ServedBySome(WEnsure(userId, currency, tag), s, p, t)
  {
    hide EnsureWallet, Served, Serves;
    var id :| Served(s, p, EnsureWallet(s.db, userId, currency, id, tag).0, {}, t);
    ServedServes(s, p, ReqRegister(userId, currency, id, tag), t);
  }
}
