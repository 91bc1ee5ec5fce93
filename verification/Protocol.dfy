/** The services as concurrent processes. Every database or cache call is one step, so
    guards are read long before the transaction that relies on them; a database transaction
    is split into its row locks (each reading a balance) and its commit. Any process may stop
    at any point, which rolls its transaction back and releases its locks. */
module Protocol {
  import opened Rows
  import opened Operations
  import JsNumber

  const BALANCE_CACHE_TTL_MS := 60_000
  const DECLINED := "Payment provider declined"

  datatype TransferRequest = TransferRequest(fromUserId: Id, toWalletTag: string, amount: int, currency: string,
          key: string)
  datatype DepositRequest = DepositRequest(userId: Id, amount: int, currency: string, key: string)

  /** What the payment gateway answers; an unsupported method or an exception is `Threw`. */
  datatype Gateway =
    | Threw
    | Declined(reason: Option<string>)
    | Accepted(providerRef: Option<string>, requiresWebhook: bool, checkoutUrl: Option<string>)

  /** A transfer between its insert and the end of `executeTransfer`. */
  datatype Running = Running(id: Id, row: Transfer, fromId: Id, toId: Id) {
    function First(): Id { LockOrder(fromId, toId).0 }
    function Second(): Id { LockOrder(fromId, toId).1 }
  }

  /** A wallet row as a reader saw it, with when that was: the clock and the ledger's length. */
  datatype Seen = Seen(walletId: Id, wallet: Wallet, readAt: nat, readLen: nat)
  datatype CacheEntry = CacheEntry(seen: Seen, setAt: nat)
  datatype Answer = Answer(userId: Id, currency: string, seen: Seen, filledAt: nat, at: nat)

  datatype Proc =
    // initiateTransfer
    | TFindRecipient(req: TransferRequest)
    | TFindExisting(req: TransferRequest, toId: Id, toUserId: Id)
    | TFindSender(req: TransferRequest, toId: Id, toUserId: Id)
    | TCreate(req: TransferRequest, toId: Id, toUserId: Id, fromId: Id)
    | TLockFirst(x: Running)
    | TLockSecond(x: Running, firstRead: int)
    | TCommit(x: Running, firstRead: int, secondRead: int)
    // settleByProviderRef
    | SFind(providerRef: string)
    | SFindWallet(txId: Id, tx: Transaction)
    | SLock(txId: Id, tx: Transaction, walletId: Id)
    | SCommit(txId: Id, tx: Transaction, walletId: Id, balanceRead: int)
    // failByProviderRef; FWrite also ends a declined deposit
    | FFind(providerRef: string, reason: string)
    | FWrite(txId: Id, reason: string)
    // deposit
    | DFindExisting(dep: DepositRequest)
    | DFindWallet(dep: DepositRequest)
    | DCreate(dep: DepositRequest)
    | DGateway(txId: Id)
    | DSetRef(txId: Id, providerRef: string)
    // createWallet and ensureWallet
    | WFind(userId: Id, currency: string, tag: string)
    | WEnsure(userId: Id, currency: string, tag: string)
    | WInsert(userId: Id, currency: string, tag: string)
    // cache deletions after a commit, in any order
    | Invalidate(keys: set<string>)
    // getBalance
    | BGet(userId: Id, currency: string)
    | BRead(userId: Id, currency: string)
    | BFill(userId: Id, currency: string, seen: Seen)
    | Done

  datatype State = State(
    db: Db,
    locks: map<Id, nat>,              // locked wallet rows and their holders
    procs: map<nat, Proc>,
    cache: map<string, CacheEntry>,
    now: nat,
    times: seq<nat>,                  // commit time of each ledger entry
    log: seq<Op>,                     // the operations committed so far
    answers: seq<Answer>)             // what getBalance returned so far

  const INITIAL := State(EMPTY_DB, map[], map[], map[], 0, [], [], [])

  function HeldBy(proc: Proc): set<Id> {
    match proc
    case TLockSecond(x, _) => {x.First()}
    case TCommit(x, _, _) => {x.First(), x.Second()}
    case SCommit(_, _, walletId, _) => {walletId}
    case _ => {}
  }

  function RunningOf(proc: Proc): Option<Id> {
    match proc
    case TLockFirst(x) => Some(x.id)
    case TLockSecond(x, _) => Some(x.id)
    case TCommit(x, _, _) => Some(x.id)
    case _ => None
  }

  predicate RequestOk(req: TransferRequest) {
    req.amount >= 1 && ColonFree(req.fromUserId)
  }

  /** The state in which a request arrives, as validated by its controller. */
  predicate Arrival(proc: Proc) {
    match proc
    case TFindRecipient(req) => RequestOk(req)
    case SFind(_) => true
    case FFind(_, _) => true
    case DFindExisting(dep) => dep.amount >= 1
    case WFind(userId, _, _) => ColonFree(userId)
    case WEnsure(userId, _, _) => ColonFree(userId)   // the registration listener
    case BGet(userId, _) => ColonFree(userId)
    case _ => false
  }

  datatype Action =
    | Arrive(p: nat, proc: Proc)
    | Go(p: nat, id: Id, gateway: Gateway)  // `id`: the new row's id, the row a query picked, or the key deleted next
    | Crash(p: nat)
    | Tick(ms: nat)
    | Evict(key: string)

  predicate Free(s: State, w: Id, p: nat) {
    w !in s.locks || s.locks[w] == p
  }

  ghost predicate PickOk(db: Db, providerRef: string, id: Id) {
    (exists t :: HasRef(db, t, providerRef)) ==> HasRef(db, id, providerRef)
  }

  ghost predicate CanGo(s: State, p: nat, id: Id, gateway: Gateway) {
    p in s.procs
    && match s.procs[p]
       case Done => false
       case TLockFirst(x) => Free(s, x.First(), p)
       case TLockSecond(x, _) => Free(s, x.Second(), p)
       case TCommit(x, _, _) => x.fromId in s.db.wallets && x.toId in s.db.wallets
       case SLock(_, _, walletId) => Free(s, walletId, p)
       case SCommit(_, _, walletId, _) => walletId in s.db.wallets
       case SFind(providerRef) => PickOk(s.db, providerRef, id)
       case FFind(providerRef, _) => PickOk(s.db, providerRef, id)
       case Invalidate(keys) => keys != {} ==> id in keys
       case _ => true
  }

  function Moved(s: State, p: nat, proc: Proc): State {
    s.(procs := s.procs[p := proc])
  }

  function Released(locks: map<Id, nat>, p: nat): map<Id, nat> {
    map w | w in locks && locks[w] != p :: locks[w]
  }

  function Stamp(times: seq<nat>, length: nat, now: nat): seq<nat> {
    if length <= |times| then times else times + seq(length - |times|, _ => now)
  }

  /** Process `p` committed `op`, leaving `db`, and ends its transaction. */
  function Committed(s: State, p: nat, op: Op, db: Db, proc: Proc): State {
    s.(db := db, locks := Released(s.locks, p), procs := s.procs[p := proc],
       times := Stamp(s.times, |db.ledger|, s.now), log := s.log + [op])
  }

  /** The end of a process, normal or not: its locks go and nothing is written. */
  function Stopped(s: State, p: nat): State {
    s.(locks := Released(s.locks, p), procs := s.procs[p := Done])
  }

  function Finish(s: State, p: nat, op: Op, outcome: Result<Db>, proc: Proc): State {
    match outcome
    case Ok(d) => Committed(s, p, op, d, proc)
    case Err(_) => Stopped(s, p)
  }

  function TransferKeys(row: Transfer): set<string> {
    {BalanceKey(row.fromUserId, row.currency), BalanceKey(row.toUserId, row.currency)}
  }

  // ---- initiateTransfer ----

  ghost function FindRecipient(s: State, p: nat, req: TransferRequest): State {
    match FindByTag(s.db, req.toWalletTag)
    case None => Moved(s, p, Done)
    case Some(toId) =>
      var to := s.db.wallets[toId];
      if to.currency != req.currency || req.fromUserId == to.userId then Moved(s, p, Done)
      else Moved(s, p, TFindExisting(req, toId, to.userId))
  }

  ghost function FindExisting(s: State, p: nat, req: TransferRequest, toId: Id, toUserId: Id): State {
    if TransferKeyUsed(s.db, req.key) then Moved(s, p, Done)
    else Moved(s, p, TFindSender(req, toId, toUserId))
  }

  ghost function FindSender(s: State, p: nat, req: TransferRequest, toId: Id, toUserId: Id): State {
    match FindWallet(s.db, req.fromUserId, req.currency)
    case None => Moved(s, p, Done)
    case Some(fromId) => Moved(s, p, TCreate(req, toId, toUserId, fromId))
  }

  ghost function InsertTransfer(s: State, p: nat, req: TransferRequest, toId: Id, toUserId: Id, fromId: Id,
          id: Id): State {
    var row := NewTransfer(req.fromUserId, toUserId, req.amount, req.currency, req.key);
    var op := OpCreateTransfer(id, row);
    Finish(s, p, op, Apply(s.db, op), TLockFirst(Running(id, row, fromId, toId)))
  }

  /** Take the row lock on `w` and go on as `proc`; a null row makes the caller throw. */
  function Lock(s: State, p: nat, w: Id, proc: Proc): State {
    if w !in s.db.wallets then Stopped(s, p)
    else Moved(s.(locks := s.locks[w := p]), p, proc)
  }

  function BalanceOf(db: Db, w: Id): int {
    if w in db.wallets then db.wallets[w].balance else 0
  }

  ghost function CommitRunning(s: State, p: nat, x: Running, firstRead: int, secondRead: int): State
    requires x.fromId in s.db.wallets && x.toId in s.db.wallets
  {
    var fromRead := if x.First() == x.fromId then firstRead else secondRead;
    var toRead := if x.First() == x.toId then firstRead else secondRead;
    Finish(s, p, OpExecute(x.id, x.row, x.fromId, x.toId),
           CommitTransfer(s.db, x.id, x.row, x.fromId, x.toId, TransferEvent(x.id, x.row), fromRead, toRead),
           Invalidate(TransferKeys(x.row)))
  }

  // ---- settleByProviderRef and failByProviderRef ----

  /** Go on as `proc` if the row picked for `providerRef` is there and pending. */
  function IfPending(s: State, p: nat, providerRef: string, id: Id, proc: Proc): State {
    if !HasRef(s.db, id, providerRef) || s.db.transactions[id].status != Pending then Moved(s, p, Done)
    else Moved(s, p, proc)
  }

  function TransactionAt(db: Db, id: Id): Transaction {
    if id in db.transactions then db.transactions[id] else Transaction("", 0, "", "", Pending, None, None)
  }

  ghost function FindSettlementWallet(s: State, p: nat, txId: Id, tx: Transaction): State {
    match FindWallet(s.db, tx.userId, tx.currency)
    case None => Moved(s, p, Done)
    case Some(walletId) => Moved(s, p, SLock(txId, tx, walletId))
  }

  ghost function CommitDeposit(s: State, p: nat, txId: Id, tx: Transaction, walletId: Id, balanceRead: int): State
    requires walletId in s.db.wallets
  {
    Finish(s, p, OpSettle(walletId, txId, tx),
           CommitSettlement(s.db, walletId, txId, tx, Deposit, JsNumber.Number(tx.amount),
                            DepositEvent(walletId, tx), balanceRead),
           Invalidate({BalanceKey(tx.userId, tx.currency)}))
  }

  // ---- deposit, createWallet and other single statements ----

  ghost function Statement(s: State, p: nat, op: Op, proc: Proc): State {
    Finish(s, p, op, Apply(s.db, op), proc)
  }

  /** An absent or empty reference is not stored. */
  predicate IsRef(providerRef: Option<string>) {
    providerRef.Some? && providerRef.value != ""
  }

  function AfterGateway(txId: Id, gateway: Gateway): Proc {
    match gateway
    case Threw => Done
    case Declined(reason) => FWrite(txId, if reason.Some? then reason.value else DECLINED)
    case Accepted(providerRef, _, _) => if IsRef(providerRef) then DSetRef(txId, providerRef.value) else Done
  }

  // ---- the balance cache ----

  function DropKey(s: State, p: nat, keys: set<string>, key: string): State {
    if keys == {} then Moved(s, p, Done)
    else Moved(s.(cache := s.cache - {key}), p, Invalidate(keys - {key}))
  }

  function GetCached(s: State, p: nat, userId: Id, currency: string): State {
    var key := BalanceKey(userId, currency);
    if key in s.cache && s.now < s.cache[key].setAt + BALANCE_CACHE_TTL_MS then
      Moved(s, p, Done).(
        answers := s.answers + [Answer(userId, currency, s.cache[key].seen, s.cache[key].setAt, s.now)])
    else Moved(s, p, BRead(userId, currency))
  }

  ghost function ReadBalance(s: State, p: nat, userId: Id, currency: string): State {
    match FindWallet(s.db, userId, currency)
    case None => Moved(s, p, Done)
    case Some(walletId) =>
      Moved(s, p, BFill(userId, currency, Seen(walletId, s.db.wallets[walletId], s.now, |s.db.ledger|)))
  }

  function FillCache(s: State, p: nat, userId: Id, currency: string, seen: Seen): State {
    Moved(s, p, Done).(
      cache := s.cache[BalanceKey(userId, currency) := CacheEntry(seen, s.now)],
      answers := s.answers + [Answer(userId, currency, seen, s.now, s.now)])
  }

  ghost function Next(s: State, p: nat, id: Id, gateway: Gateway): State
    requires CanGo(s, p, id, gateway)
  {
    match s.procs[p]
    case TFindRecipient(req) => FindRecipient(s, p, req)
    case TFindExisting(req, toId, toUserId) => FindExisting(s, p, req, toId, toUserId)
    case TFindSender(req, toId, toUserId) => FindSender(s, p, req, toId, toUserId)
    case TCreate(req, toId, toUserId, fromId) => InsertTransfer(s, p, req, toId, toUserId, fromId, id)
    case TLockFirst(x) => Lock(s, p, x.First(), TLockSecond(x, BalanceOf(s.db, x.First())))
    case TLockSecond(x, firstRead) => Lock(s, p, x.Second(), TCommit(x, firstRead, BalanceOf(s.db, x.Second())))
    case TCommit(x, firstRead, secondRead) => CommitRunning(s, p, x, firstRead, secondRead)
    case SFind(providerRef) => IfPending(s, p, providerRef, id, SFindWallet(id, TransactionAt(s.db, id)))
    case SFindWallet(txId, tx) => FindSettlementWallet(s, p, txId, tx)
    case SLock(txId, tx, walletId) => Lock(s, p, walletId, SCommit(txId, tx, walletId, BalanceOf(s.db, walletId)))
    case SCommit(txId, tx, walletId, balanceRead) => CommitDeposit(s, p, txId, tx, walletId, balanceRead)
    case FFind(providerRef, reason) => IfPending(s, p, providerRef, id, FWrite(id, reason))
    case FWrite(txId, reason) => Statement(s, p, OpFail(txId, reason), Done)
    case DFindExisting(dep) =>
      if TransactionKeyUsed(s.db, dep.key) then Moved(s, p, Done) else Moved(s, p, DFindWallet(dep))
    case DFindWallet(dep) =>
      if FindWallet(s.db, dep.userId, dep.currency).None? then Moved(s, p, Done) else Moved(s, p, DCreate(dep))
    case DCreate(dep) =>
      Statement(s, p, OpCreateTransaction(id, dep.userId, dep.amount, dep.currency, dep.key), DGateway(id))
    case DGateway(txId) => Moved(s, p, AfterGateway(txId, gateway))
    case DSetRef(txId, providerRef) => Statement(s, p, OpSetProviderRef(txId, providerRef), Done)
    case WFind(userId, currency, tag) =>
      if FindWallet(s.db, userId, currency).Some? then Moved(s, p, Done)
      else Moved(s, p, WEnsure(userId, currency, tag))
    case WEnsure(userId, currency, tag) =>
      if FindWallet(s.db, userId, currency).Some? then Moved(s, p, Done)
      else Moved(s, p, WInsert(userId, currency, tag))
    case WInsert(userId, currency, tag) => Statement(s, p, OpInsertWallet(id, userId, currency, tag), Done)
    case Invalidate(keys) => DropKey(s, p, keys, id)
    case BGet(userId, currency) => GetCached(s, p, userId, currency)
    case BRead(userId, currency) => ReadBalance(s, p, userId, currency)
    case BFill(userId, currency, seen) => FillCache(s, p, userId, currency, seen)
  }

  ghost predicate Enabled(s: State, a: Action) {
    match a
    case Arrive(p, proc) => p !in s.procs && Arrival(proc)
    case Go(p, id, gateway) => CanGo(s, p, id, gateway)
    case Crash(p) => p in s.procs
    case Tick(_) => true
    case Evict(_) => true
  }

  ghost function Step(s: State, a: Action): State
    requires Enabled(s, a)
  {
    match a
    case Arrive(p, proc) => Moved(s, p, proc)
    case Go(p, id, gateway) => Next(s, p, id, gateway)
    case Crash(p) => Stopped(s, p)
    case Tick(ms) => s.(now := s.now + ms)
    case Evict(key) => s.(cache := s.cache - {key})
  }

  /** The state after a run from `s`; `None` when some action was not enabled. */
  ghost function Continue(s: State, run: seq<Action>): Option<State> {
    if run == [] then Some(s)
    else
      var prior, a := Continue(s, run[..|run| - 1]), run[|run| - 1];
      if prior.Some? && Enabled(prior.value, a) then Some(Step(prior.value, a)) else None
  }

  /** The state after a run of the whole system. */
  ghost function After(run: seq<Action>): Option<State> {
    Continue(INITIAL, run)
  }
}
