/** What every interleaving keeps, whatever the amounts: the store's invariant, each process's
    guards as they still stand, exact lock ownership, and serialisability. */
module ProtocolInvariant {
  import opened Rows
  import opened Operations
  import opened StoreInvariant
  import opened StorePreservation
  import opened Protocol
  import JsNumber

  predicate RunningOk(db: Db, x: Running) {
    Executable(db, x.id, x.row, x.fromId, x.toId)
  }

  predicate CurrentBalance(db: Db, w: Id, read: int) {
    w in db.wallets && db.wallets[w].balance == read
  }

  /** What a process relies on from its earlier reads. Balances read under lock are current. */
  predicate ProcOk(db: Db, proc: Proc) {
    match proc
    case TFindRecipient(req) => RequestOk(req)
    case TFindExisting(req, toId, toUserId) =>
      RequestOk(req) && Owns(db.wallets, toId, toUserId, req.currency) && req.fromUserId != toUserId
    case TFindSender(req, toId, toUserId) =>
      RequestOk(req) && Owns(db.wallets, toId, toUserId, req.currency) && req.fromUserId != toUserId
    case TCreate(req, toId, toUserId, fromId) =>
      RequestOk(req) && Owns(db.wallets, toId, toUserId, req.currency) && req.fromUserId != toUserId
      && Owns(db.wallets, fromId, req.fromUserId, req.currency)
    case TLockFirst(x) => RunningOk(db, x)
    case TLockSecond(x, firstRead) => RunningOk(db, x) && CurrentBalance(db, x.First(), firstRead)
    case TCommit(x, firstRead, secondRead) =>
      RunningOk(db, x) && CurrentBalance(db, x.First(), firstRead) && CurrentBalance(db, x.Second(), secondRead)
    case SFindWallet(txId, tx) =>
      txId in db.transactions && SameRequest(db.transactions[txId], tx) && db.transactions[txId].providerRef.Some?
    case SLock(txId, tx, walletId) => Settleable(db, walletId, txId, tx)
    case SCommit(txId, tx, walletId, balanceRead) =>
      Settleable(db, walletId, txId, tx) && CurrentBalance(db, walletId, balanceRead)
    case DFindExisting(dep) => dep.amount >= 1
    case DFindWallet(dep) => dep.amount >= 1
    case DCreate(dep) => dep.amount >= 1
    case WFind(userId, _, _) => ColonFree(userId)
    case WEnsure(userId, _, _) => ColonFree(userId)
    case WInsert(userId, _, _) => ColonFree(userId)
    case _ => true
  }

  ghost predicate AllOk(s: State) {
    forall p :: p in s.procs ==> ProcOk(s.db, s.procs[p])
  }

  predicate Holds(procs: map<nat, Proc>, p: nat, w: Id) {
    p in procs && w in HeldBy(procs[p])
  }

  /** The lock table is exactly what the processes hold; so no two hold the same row. */
  ghost predicate LocksExact(locks: map<Id, nat>, procs: map<nat, Proc>) {
    forall w, p :: (w in locks && locks[w] == p) <==> Holds(procs, p, w)
  }

  /** No two processes execute the same transfer row. */
  ghost predicate OneRunner(procs: map<nat, Proc>) {
    forall p, q :: p in procs && q in procs && p != q && RunningOf(procs[p]).Some? ==>
      RunningOf(procs[p]) != RunningOf(procs[q])
  }

  /** The database is what the committed operations produce when run one after the other. */
  ghost predicate Serial(s: State) {
    Replay(EMPTY_DB, s.log) == Ok(s.db)
  }

  ghost predicate Inv(s: State) {
    StoreInv(s.db) && AllOk(s) && LocksExact(s.locks, s.procs) && OneRunner(s.procs) && Serial(s)
  }

  // ---- Interference: what another process's commit leaves untouched ----

  /** Another process's view: rows only grow, and balances and transfers that the committing
      process did not own are as before. */
  ghost predicate Stable(a: Db, b: Db, mine: set<Id>, myTransfer: Option<Id>) {
    && Grows(a, b)
    && (forall w :: w in a.wallets && w !in mine ==> b.wallets[w].balance == a.wallets[w].balance)
    && (forall t :: t in a.transfers && Some(t) != myTransfer ==> b.transfers[t] == a.transfers[t])
  }

  lemma StableKeepsProc(a: Db, b: Db, mine: set<Id>, myTransfer: Option<Id>, proc: Proc)
    requires ProcOk(a, proc) && Stable(a, b, mine, myTransfer)
    requires HeldBy(proc) !! mine
    requires RunningOf(proc).Some? ==> RunningOf(proc) != myTransfer
    ensures ProcOk(b, proc)
  {
    if HeldBy(proc) != {} {
      hide ProcOk, Stable;
      StableKeepsHolder(a, b, mine, myTransfer, proc);
    }
  }

  /** The case of a process that holds locks: what it read cannot have moved. */
  lemma StableKeepsHolder(a: Db, b: Db, mine: set<Id>, myTransfer: Option<Id>, proc: Proc)
    requires ProcOk(a, proc) && Stable(a, b, mine, myTransfer)
    requires HeldBy(proc) !! mine && HeldBy(proc) != {}
    requires RunningOf(proc).Some? ==> RunningOf(proc) != myTransfer
    ensures ProcOk(b, proc)
  {
    match proc
    case TCommit(x, firstRead, secondRead) =>
      BalanceStable(a, b, mine, myTransfer, x.First(), firstRead);
      BalanceStable(a, b, mine, myTransfer, x.Second(), secondRead);
      RunningStable(a, b, mine, myTransfer, x);
    case TLockSecond(x, firstRead) =>
      BalanceStable(a, b, mine, myTransfer, x.First(), firstRead);
      RunningStable(a, b, mine, myTransfer, x);
    case SCommit(txId, tx, walletId, balanceRead) =>
      BalanceStable(a, b, mine, myTransfer, walletId, balanceRead);
  }

  lemma BalanceStable(a: Db, b: Db, mine: set<Id>, myTransfer: Option<Id>, w: Id, read: int)
    requires Stable(a, b, mine, myTransfer) && CurrentBalance(a, w, read) && w !in mine
    ensures CurrentBalance(b, w, read)
  {
  }

  lemma RunningStable(a: Db, b: Db, mine: set<Id>, myTransfer: Option<Id>, x: Running)
    requires Stable(a, b, mine, myTransfer) && RunningOk(a, x) && Some(x.id) != myTransfer
    ensures RunningOk(b, x)
  {
  }

  function Touched(op: Op): set<Id> {
    match op
    case OpSettle(walletId, _, _) => {walletId}
    case OpExecute(_, _, fromId, toId) => {fromId, toId}
    case _ => {}
  }

  function Ran(op: Op): Option<Id> {
    match op
    case OpExecute(id, _, _, _) => Some(id)
    case _ => None
  }

  lemma OpStable(db: Db, op: Op, d: Db)
    requires Apply(db, op) == Ok(d)
    ensures Stable(db, d, Touched(op), Ran(op))
  {
    EveryOpGrows(db, op);
  }

  // ---- Lock table updates ----

  lemma ReleasedExact(locks: map<Id, nat>, procs: map<nat, Proc>, p: nat, proc: Proc)
    requires LocksExact(locks, procs) && p in procs && HeldBy(proc) == {}
    ensures LocksExact(Released(locks, p), procs[p := proc])
  {
    var after := procs[p := proc];
    forall w, q
      ensures (w in Released(locks, p) && Released(locks, p)[w] == q) <==> Holds(after, q, w)
    {
      assert (w in locks && locks[w] == q) <==> Holds(procs, q, w);
    }
  }

  lemma AcquiredExact(locks: map<Id, nat>, procs: map<nat, Proc>, p: nat, w: Id, proc: Proc)
    requires LocksExact(locks, procs) && p in procs
    requires w in locks ==> locks[w] == p
    requires HeldBy(proc) == HeldBy(procs[p]) + {w}
    ensures LocksExact(locks[w := p], procs[p := proc])
  {
    var after := procs[p := proc];
    forall v, q
      ensures (v in locks[w := p] && locks[w := p][v] == q) <==> Holds(after, q, v)
    {
      assert (v in locks && locks[v] == q) <==> Holds(procs, q, v);
    }
  }

  lemma UnchangedExact(locks: map<Id, nat>, procs: map<nat, Proc>, p: nat, proc: Proc)
    requires LocksExact(locks, procs)
    requires HeldBy(proc) == if p in procs then HeldBy(procs[p]) else {}
    ensures LocksExact(locks, procs[p := proc])
  {
    var after := procs[p := proc];
    forall v, q
      ensures (v in locks && locks[v] == q) <==> Holds(after, q, v)
    {
      assert (v in locks && locks[v] == q) <==> Holds(procs, q, v);
      assert Holds(procs, q, v) <==> Holds(after, q, v);
    }
  }

  // ---- The shapes of a step ----

  lemma OneRunnerKept(procs: map<nat, Proc>, p: nat, proc: Proc)
    requires OneRunner(procs)
    requires RunningOf(proc).None? || (p in procs && RunningOf(proc) == RunningOf(procs[p]))
    ensures OneRunner(procs[p := proc])
  {
  }

  lemma AllOkMoved(s: State, p: nat, proc: Proc)
    requires AllOk(s) && ProcOk(s.db, proc)
    ensures AllOk(Moved(s, p, proc))
  {
  }

  /** A step that writes nothing and takes no lock. */
  lemma MovedKeeps(s: State, p: nat, proc: Proc)
    requires Inv(s) && ProcOk(s.db, proc)
    requires HeldBy(proc) == if p in s.procs then HeldBy(s.procs[p]) else {}
    requires RunningOf(proc).None? || (p in s.procs && RunningOf(proc) == RunningOf(s.procs[p]))
    ensures Inv(Moved(s, p, proc))
  {
    AllOkMoved(s, p, proc);
    hide StoreInv, AllOk, LocksExact, OneRunner;
    UnchangedExact(s.locks, s.procs, p, proc);
    OneRunnerKept(s.procs, p, proc);
  }

  lemma LockedKeeps(s: State, p: nat, w: Id, proc: Proc)
    requires Inv(s) && p in s.procs && Free(s, w, p) && ProcOk(s.db, proc)
    requires HeldBy(proc) == HeldBy(s.procs[p]) + {w}
    requires RunningOf(proc) == RunningOf(s.procs[p])
    ensures Inv(Moved(s.(locks := s.locks[w := p]), p, proc))
  {
    var t := s.(locks := s.locks[w := p]);
    assert AllOk(t);
    AllOkMoved(t, p, proc);
    hide StoreInv, AllOk, LocksExact, OneRunner;
    AcquiredExact(s.locks, s.procs, p, w, proc);
    OneRunnerKept(s.procs, p, proc);
  }

  lemma StoppedKeeps(s: State, p: nat)
    requires Inv(s) && p in s.procs
    ensures Inv(Stopped(s, p))
  {
    var t := s.(locks := Released(s.locks, p));
    assert AllOk(t);
    AllOkMoved(t, p, Done);
    hide StoreInv, AllOk, LocksExact, OneRunner;
    ReleasedExact(s.locks, s.procs, p, Done);
    OneRunnerKept(s.procs, p, Done);
  }

  /** The other processes' guards survive a commit by the holder of what it touches. */
  lemma OthersKept(s: State, p: nat, op: Op, d: Db)
    requires AllOk(s) && LocksExact(s.locks, s.procs) && OneRunner(s.procs) && p in s.procs
    requires Apply(s.db, op) == Ok(d)
    requires Touched(op) <= HeldBy(s.procs[p])
    requires Ran(op).Some? ==> Ran(op) == RunningOf(s.procs[p])
    ensures forall q :: q in s.procs && q != p ==> ProcOk(d, s.procs[q])
  {
    OpStable(s.db, op, d);
    forall q | q in s.procs && q != p
      ensures ProcOk(d, s.procs[q])
    {
      forall w | w in HeldBy(s.procs[q])
        ensures w !in Touched(op)
      {
        assert Holds(s.procs, q, w);
        assert w in s.locks && s.locks[w] == q;
        assert !Holds(s.procs, p, w);
      }
      StableKeepsProc(s.db, d, Touched(op), Ran(op), s.procs[q]);
    }
  }

  lemma SerialKept(s: State, op: Op, d: Db)
    requires Serial(s) && Apply(s.db, op) == Ok(d)
    ensures Replay(EMPTY_DB, s.log + [op]) == Ok(d)
  {
    ReplaySnoc(EMPTY_DB, s.log, op);
  }

  lemma CommittedKeeps(s: State, p: nat, op: Op, d: Db, proc: Proc)
    requires Inv(s) && p in s.procs && OpOk(s.db, op) && Apply(s.db, op) == Ok(d)
    requires Touched(op) <= HeldBy(s.procs[p])
    requires Ran(op).Some? ==> Ran(op) == RunningOf(s.procs[p])
    requires ProcOk(d, proc) && HeldBy(proc) == {} && OneRunner(s.procs[p := proc])
    ensures Inv(Committed(s, p, op, d, proc))
  {
    hide OpOk, Apply, StoreInv, LocksExact, OneRunner, ProcOk;
    OpKeepsStore(s.db, op, d);
    OthersKept(s, p, op, d);
    ReleasedExact(s.locks, s.procs, p, proc);
    SerialKept(s, op, d);
  }

  // ---- The commits use what was read under lock ----

  /** A settlement commits what the atomic operation would: its balance read is current. */
  lemma SettlementAtomic(db: Db, txId: Id, tx: Transaction, walletId: Id, balanceRead: int)
    requires ProcOk(db, SCommit(txId, tx, walletId, balanceRead))
    ensures CommitSettlement(db, walletId, txId, tx, Deposit, JsNumber.Number(tx.amount), DepositEvent(walletId, tx),
        balanceRead)
         == Apply(db, OpSettle(walletId, txId, tx))
  {
  }

  /** A transfer commits what the atomic operation would. */
  lemma TransferAtomic(db: Db, x: Running, firstRead: int, secondRead: int)
    requires ProcOk(db, TCommit(x, firstRead, secondRead))
    ensures CommitTransfer(db, x.id, x.row, x.fromId, x.toId, TransferEvent(x.id, x.row),
                           if x.First() == x.fromId then firstRead else secondRead,
                           if x.First() == x.toId then firstRead else secondRead)
         == Apply(db, OpExecute(x.id, x.row, x.fromId, x.toId))
  {
    LockOrderSorted(x.fromId, x.toId);
  }

  lemma NewRunner(s: State, p: nat, x: Running, d: Db)
    requires AllOk(s) && OneRunner(s.procs) && p in s.procs
    requires CreateTransfer(s.db, x.id, x.row) == Ok(d)
    ensures OneRunner(s.procs[p := TLockFirst(x)])
  {
    forall q | q in s.procs && RunningOf(s.procs[q]).Some?
      ensures RunningOf(s.procs[q]) != Some(x.id)
    {
      assert ProcOk(s.db, s.procs[q]);
    }
  }

  // ---- Every step ----

  /** The parts of the invariant that a single step's own lemma need not look into. */
  lemma Moving(s: State, p: nat, proc: Proc)
    requires Inv(s) && p in s.procs && ProcOk(s.db, proc)
    requires HeldBy(s.procs[p]) == HeldBy(proc) == {} && RunningOf(proc).None?
    ensures Inv(Moved(s, p, proc))
  {
    hide Inv;
    MovedKeeps(s, p, proc);
  }

  lemma FindRecipientKeeps(s: State, p: nat, req: TransferRequest)
    requires Inv(s) && p in s.procs && s.procs[p] == TFindRecipient(req) && RequestOk(req)
    ensures Inv(FindRecipient(s, p, req))
  {
    hide Inv;
    Moving(s, p, Done);
    var r := FindByTag(s.db, req.toWalletTag);
    if r.Some? {
      var to := s.db.wallets[r.value];
      if to.currency == req.currency && to.userId != req.fromUserId {
        Moving(s, p, TFindExisting(req, r.value, to.userId));
      }
    }
  }

  lemma FindSenderKeeps(s: State, p: nat, req: TransferRequest, toId: Id, toUserId: Id)
    requires Inv(s) && p in s.procs && s.procs[p] == TFindSender(req, toId, toUserId)
    requires ProcOk(s.db, s.procs[p])
    ensures Inv(FindSender(s, p, req, toId, toUserId))
  {
    hide Inv;
    Moving(s, p, Done);
    var r := FindWallet(s.db, req.fromUserId, req.currency);
    if r.Some? {
      Moving(s, p, TCreate(req, toId, toUserId, r.value));
    }
  }

  lemma InsertTransferKeeps(s: State, p: nat, req: TransferRequest, toId: Id, toUserId: Id, fromId: Id, id: Id)
    requires Inv(s) && p in s.procs && s.procs[p] == TCreate(req, toId, toUserId, fromId)
    requires ProcOk(s.db, s.procs[p])
    ensures Inv(InsertTransfer(s, p, req, toId, toUserId, fromId, id))
  {
    hide StoreInv, LocksExact, OneRunner, Serial;
    var row := NewTransfer(req.fromUserId, toUserId, req.amount, req.currency, req.key);
    var op, x := OpCreateTransfer(id, row), Running(id, row, fromId, toId);
    match Apply(s.db, op)
    case Ok(d) =>
      NewRunner(s, p, x, d);
      hide AllOk;
      CommittedKeeps(s, p, op, d, TLockFirst(x));
    case Err(_) =>
      hide Inv;
      StoppedKeeps(s, p);
  }

  lemma LockKeeps(s: State, p: nat, w: Id, proc: Proc)
    requires Inv(s) && p in s.procs && Free(s, w, p)
    requires w in s.db.wallets ==> ProcOk(s.db, proc)
    requires HeldBy(proc) == HeldBy(s.procs[p]) + {w} && RunningOf(proc) == RunningOf(s.procs[p])
    ensures Inv(Lock(s, p, w, proc))
  {
    hide Inv;
    if w in s.db.wallets {
      LockedKeeps(s, p, w, proc);
    } else {
      StoppedKeeps(s, p);
    }
  }

  lemma CommitRunningIs(s: State, p: nat, x: Running, firstRead: int, secondRead: int)
    requires ProcOk(s.db, TCommit(x, firstRead, secondRead))
    ensures var op := OpExecute(x.id, x.row, x.fromId, x.toId);
      CommitRunning(s, p, x, firstRead, secondRead)
      == Finish(s, p, op, Apply(s.db, op), Invalidate(TransferKeys(x.row)))
  {
    TransferAtomic(s.db, x, firstRead, secondRead);
    hide CommitTransfer, Apply;
  }

  lemma CommitRunningKeeps(s: State, p: nat, x: Running, firstRead: int, secondRead: int)
    requires Inv(s) && p in s.procs && s.procs[p] == TCommit(x, firstRead, secondRead)
    requires ProcOk(s.db, s.procs[p])
    ensures Inv(CommitRunning(s, p, x, firstRead, secondRead))
  {
    hide Apply, CommitTransfer, OneRunner, StoreInv, AllOk, LocksExact, Serial;
    var op, after := OpExecute(x.id, x.row, x.fromId, x.toId), Invalidate(TransferKeys(x.row));
    CommitRunningIs(s, p, x, firstRead, secondRead);
    LockOrderSorted(x.fromId, x.toId);
    OneRunnerKept(s.procs, p, after);
    hide Inv, CommitRunning, Committed, Stopped;
    match Apply(s.db, op)
    case Ok(d) => CommittedKeeps(s, p, op, d, after);
    case Err(_) => StoppedKeeps(s, p);
  }

  lemma CommitDepositIs(s: State, p: nat, txId: Id, tx: Transaction, walletId: Id, balanceRead: int)
    requires ProcOk(s.db, SCommit(txId, tx, walletId, balanceRead))
    ensures var op := OpSettle(walletId, txId, tx);
      CommitDeposit(s, p, txId, tx, walletId, balanceRead)
      == Finish(s, p, op, Apply(s.db, op), Invalidate({BalanceKey(tx.userId, tx.currency)}))
  {
    SettlementAtomic(s.db, txId, tx, walletId, balanceRead);
    hide CommitSettlement, Apply;
  }

  lemma CommitDepositKeeps(s: State, p: nat, txId: Id, tx: Transaction, walletId: Id, balanceRead: int)
    requires Inv(s) && p in s.procs && s.procs[p] == SCommit(txId, tx, walletId, balanceRead)
    requires ProcOk(s.db, s.procs[p])
    ensures Inv(CommitDeposit(s, p, txId, tx, walletId, balanceRead))
  {
    hide Apply, CommitSettlement, OneRunner, StoreInv, AllOk, LocksExact, Serial;
    var op, after := OpSettle(walletId, txId, tx), Invalidate({BalanceKey(tx.userId, tx.currency)});
    CommitDepositIs(s, p, txId, tx, walletId, balanceRead);
    OneRunnerKept(s.procs, p, after);
    hide Inv, CommitDeposit, Committed, Stopped;
    match Apply(s.db, op)
    case Ok(d) => CommittedKeeps(s, p, op, d, after);
    case Err(_) => StoppedKeeps(s, p);
  }

  /** A single-statement write outside any explicit transaction. */
  lemma StatementKeeps(s: State, p: nat, op: Op, proc: Proc)
    requires Inv(s) && p in s.procs && OpOk(s.db, op)
    requires Touched(op) == {} && Ran(op).None?
    requires HeldBy(proc) == {} && RunningOf(proc).None? && forall d :: ProcOk(d, proc)
    ensures Inv(Statement(s, p, op, proc))
  {
    OneRunnerKept(s.procs, p, proc);
    hide OneRunner, Inv, Apply, OpOk;
    match Apply(s.db, op)
    case Ok(d) => CommittedKeeps(s, p, op, d, proc);
    case Err(_) => StoppedKeeps(s, p);
  }

  /** The cache, the clock and the answers play no part in the invariant. */
  lemma InvIgnores(s: State, t: State)
    requires Inv(s) && t.db == s.db && t.locks == s.locks && t.procs == s.procs && t.log == s.log
    ensures Inv(t)
  {
  }

  lemma MovingAside(s: State, p: nat, proc: Proc, t: State)
    requires Inv(s) && p in s.procs && ProcOk(s.db, proc)
    requires HeldBy(s.procs[p]) == HeldBy(proc) == {} && RunningOf(proc).None?
    requires t.db == s.db && t.locks == s.locks && t.procs == s.procs[p := proc] && t.log == s.log
    ensures Inv(t)
  {
    hide Inv;
    Moving(s, p, proc);
    InvIgnores(Moved(s, p, proc), t);
  }

  lemma GetCachedKeeps(s: State, p: nat, userId: Id, currency: string)
    requires Inv(s) && p in s.procs && s.procs[p] == BGet(userId, currency)
    ensures Inv(GetCached(s, p, userId, currency))
  {
    hide Inv;
    var t := GetCached(s, p, userId, currency);
    MovingAside(s, p, t.procs[p], t);
  }

  lemma ReadBalanceKeeps(s: State, p: nat, userId: Id, currency: string)
    requires Inv(s) && p in s.procs && s.procs[p] == BRead(userId, currency)
    ensures Inv(ReadBalance(s, p, userId, currency))
  {
    hide Inv;
    var t := ReadBalance(s, p, userId, currency);
    MovingAside(s, p, t.procs[p], t);
  }

  lemma DropKeyKeeps(s: State, p: nat, keys: set<string>, key: string)
    requires Inv(s) && p in s.procs && s.procs[p] == Invalidate(keys)
    ensures Inv(DropKey(s, p, keys, key))
  {
    hide Inv;
    MovingAside(s, p, if keys == {} then Done else Invalidate(keys - {key}), DropKey(s, p, keys, key));
  }

  lemma FillCacheKeeps(s: State, p: nat, userId: Id, currency: string, seen: Seen)
    requires Inv(s) && p in s.procs && s.procs[p] == BFill(userId, currency, seen)
    ensures Inv(FillCache(s, p, userId, currency, seen))
  {
    hide Inv;
    MovingAside(s, p, Done, FillCache(s, p, userId, currency, seen));
  }

  lemma CacheKeeps(s: State, p: nat, id: Id, gateway: Gateway)
    requires Inv(s) && CanGo(s, p, id, gateway)
    requires var c := s.procs[p]; c.Invalidate? || c.BGet? || c.BRead? || c.BFill?
    ensures Inv(Next(s, p, id, gateway))
  {
    hide Inv, GetCached, ReadBalance, DropKey, FillCache;
    match s.procs[p]
    case Invalidate(keys) => DropKeyKeeps(s, p, keys, id);
    case BGet(userId, currency) => GetCachedKeeps(s, p, userId, currency);
    case BRead(userId, currency) => ReadBalanceKeeps(s, p, userId, currency);
    case BFill(userId, currency, seen) => FillCacheKeeps(s, p, userId, currency, seen);
  }

  lemma TransferKeeps(s: State, p: nat, id: Id, gateway: Gateway)
    requires Inv(s) && CanGo(s, p, id, gateway) && ProcOk(s.db, s.procs[p])
    requires var c := s.procs[p];
      c.TFindRecipient? || c.TFindExisting? || c.TFindSender? || c.TCreate?
      || c.TLockFirst? || c.TLockSecond? || c.TCommit?
    ensures Inv(Next(s, p, id, gateway))
  {
    hide Inv, FindRecipient, FindSender, InsertTransfer, Lock, CommitRunning;
    match s.procs[p]
    case TFindRecipient(req) => FindRecipientKeeps(s, p, req);
    case TFindExisting(req, toId, toUserId) =>
      Moving(s, p, Done);
      Moving(s, p, TFindSender(req, toId, toUserId));
    case TFindSender(req, toId, toUserId) => FindSenderKeeps(s, p, req, toId, toUserId);
    case TCreate(req, toId, toUserId, fromId) => InsertTransferKeeps(s, p, req, toId, toUserId, fromId, id);
    case TLockFirst(x) => LockKeeps(s, p, x.First(), TLockSecond(x, BalanceOf(s.db, x.First())));
    case TLockSecond(x, firstRead) =>
      LockKeeps(s, p, x.Second(), TCommit(x, firstRead, BalanceOf(s.db, x.Second())));
    case TCommit(x, firstRead, secondRead) => CommitRunningKeeps(s, p, x, firstRead, secondRead);
  }

  lemma IfPendingKeeps(s: State, p: nat, providerRef: string, id: Id, proc: Proc)
    requires Inv(s) && p in s.procs && HeldBy(s.procs[p]) == HeldBy(proc) == {} && RunningOf(proc).None?
    requires HasRef(s.db, id, providerRef) ==> ProcOk(s.db, proc)
    ensures Inv(IfPending(s, p, providerRef, id, proc))
  {
    hide Inv;
    Moving(s, p, Done);
    if HasRef(s.db, id, providerRef) {
      Moving(s, p, proc);
    }
  }

  lemma FindSettlementWalletKeeps(s: State, p: nat, txId: Id, tx: Transaction)
    requires Inv(s) && p in s.procs && s.procs[p] == SFindWallet(txId, tx) && ProcOk(s.db, s.procs[p])
    ensures Inv(FindSettlementWallet(s, p, txId, tx))
  {
    hide Inv;
    Moving(s, p, Done);
    var r := FindWallet(s.db, tx.userId, tx.currency);
    if r.Some? {
      Moving(s, p, SLock(txId, tx, r.value));
    }
  }

  lemma WebhookKeeps(s: State, p: nat, id: Id, gateway: Gateway)
    requires Inv(s) && CanGo(s, p, id, gateway) && ProcOk(s.db, s.procs[p])
    requires var c := s.procs[p]; c.SFind? || c.SFindWallet? || c.SLock? || c.SCommit? || c.FFind? || c.FWrite?
    ensures Inv(Next(s, p, id, gateway))
  {
    hide Inv, IfPending, FindSettlementWallet, Lock, CommitDeposit, Statement;
    match s.procs[p]
    case SFind(providerRef) => IfPendingKeeps(s, p, providerRef, id, SFindWallet(id, TransactionAt(s.db, id)));
    case SFindWallet(txId, tx) => FindSettlementWalletKeeps(s, p, txId, tx);
    case SLock(txId, tx, walletId) =>
      LockKeeps(s, p, walletId, SCommit(txId, tx, walletId, BalanceOf(s.db, walletId)));
    case SCommit(txId, tx, walletId, balanceRead) => CommitDepositKeeps(s, p, txId, tx, walletId, balanceRead);
    case FFind(providerRef, reason) => IfPendingKeeps(s, p, providerRef, id, FWrite(id, reason));
    case FWrite(txId, reason) => StatementKeeps(s, p, OpFail(txId, reason), Done);
  }

  lemma DepositKeeps(s: State, p: nat, id: Id, gateway: Gateway)
    requires Inv(s) && CanGo(s, p, id, gateway) && ProcOk(s.db, s.procs[p])
    requires var c := s.procs[p]; c.DFindExisting? || c.DFindWallet? || c.DCreate? || c.DGateway? || c.DSetRef?
    ensures Inv(Next(s, p, id, gateway))
  {
    hide Inv, Statement, Moved;
    match s.procs[p]
    case DFindExisting(dep) =>
      Moving(s, p, Done);
      Moving(s, p, DFindWallet(dep));
    case DFindWallet(dep) =>
      Moving(s, p, Done);
      Moving(s, p, DCreate(dep));
    case DCreate(dep) =>
      StatementKeeps(s, p, OpCreateTransaction(id, dep.userId, dep.amount, dep.currency, dep.key), DGateway(id));
    case DGateway(txId) => Moving(s, p, AfterGateway(txId, gateway));
    case DSetRef(txId, providerRef) => StatementKeeps(s, p, OpSetProviderRef(txId, providerRef), Done);
  }

  lemma WalletKeeps(s: State, p: nat, id: Id, gateway: Gateway)
    requires Inv(s) && CanGo(s, p, id, gateway) && ProcOk(s.db, s.procs[p])
    requires var c := s.procs[p]; c.WFind? || c.WEnsure? || c.WInsert?
    ensures Inv(Next(s, p, id, gateway))
  {
    hide Inv, Statement;
    match s.procs[p]
    case WFind(userId, currency, tag) =>
      Moving(s, p, Done);
      Moving(s, p, WEnsure(userId, currency, tag));
    case WEnsure(userId, currency, tag) =>
      Moving(s, p, Done);
      Moving(s, p, WInsert(userId, currency, tag));
    case WInsert(userId, currency, tag) => StatementKeeps(s, p, OpInsertWallet(id, userId, currency, tag), Done);
  }

  lemma NextKeeps(s: State, p: nat, id: Id, gateway: Gateway)
    requires Inv(s) && CanGo(s, p, id, gateway)
    ensures Inv(Next(s, p, id, gateway))
  {
    assert ProcOk(s.db, s.procs[p]);
    hide Inv, Next, ProcOk;
    var c := s.procs[p];
    if c.Invalidate? || c.BGet? || c.BRead? || c.BFill? {
      CacheKeeps(s, p, id, gateway);
    } else if c.WFind? || c.WEnsure? || c.WInsert? {
      WalletKeeps(s, p, id, gateway);
    } else if c.DFindExisting? || c.DFindWallet? || c.DCreate? || c.DGateway? || c.DSetRef? {
      DepositKeeps(s, p, id, gateway);
    } else if c.SFind? || c.SFindWallet? || c.SLock? || c.SCommit? || c.FFind? || c.FWrite? {
      WebhookKeeps(s, p, id, gateway);
    } else {
      TransferKeeps(s, p, id, gateway);
    }
  }

  lemma StepKeeps(s: State, a: Action)
    requires Inv(s) && Enabled(s, a)
    ensures Inv(Step(s, a))
  {
    hide Inv, Next;
    match a
    case Arrive(p, proc) => MovedKeeps(s, p, proc);
    case Go(p, id, gateway) => NextKeeps(s, p, id, gateway);
    case Crash(p) => StoppedKeeps(s, p);
    case Tick(ms) => InvIgnores(s, Step(s, a));
    case Evict(key) => InvIgnores(s, Step(s, a));
  }

  lemma {:induction false} RunKeeps(run: seq<Action>)
    ensures After(run).Some? ==> Inv(After(run).value)
  {
    hide Step, Enabled;
    if run == [] {
      EmptyStore();
      assert AllOk(INITIAL) && LocksExact(INITIAL.locks, INITIAL.procs) && OneRunner(INITIAL.procs);
    } else {
      RunKeeps(run[..|run| - 1]);
      hide Inv;
      if After(run).Some? {
        StepKeeps(After(run[..|run| - 1]).value, run[|run| - 1]);
      }
    }
  }
}
