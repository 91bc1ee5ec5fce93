/** Where everything in the database comes from: in every run, whatever the interleaving, each row, each ledger
    entry and each failure goes back to a request that arrived and says what that request said. */
module Provenance {
  import opened Rows
  import opened Operations
  import opened StoreInvariant
  import opened Protocol
  import opened ProtocolInvariant
  import opened Simulation
  import JsNumber

  /** The requests that arrived in a run, each as its process started. */
  function Came(run: seq<Action>): set<Proc> {
    set i | 0 <= i < |run| && run[i].Arrive? :: run[i].proc
  }

  // ---- Rows and the requests they come from ----

  predicate TaggedFor(wallets: map<Id, Wallet>, w: Id, tag: string, userId: Id, currency: string) {
    Owns(wallets, w, userId, currency) && wallets[w].tag == tag
  }

  ghost predicate TransferAsked(came: set<Proc>, wallets: map<Id, Wallet>, row: Transfer) {
    exists req, w ::
      && TFindRecipient(req) in came && TaggedFor(wallets, w, req.toWalletTag, row.toUserId, req.currency)
      && row.fromUserId == req.fromUserId && row.amount == req.amount && row.currency == req.currency
      && row.key == req.key && row.toUserId != req.fromUserId
  }

  ghost predicate DepositAsked(came: set<Proc>, tx: Transaction) {
    DFindExisting(DepositRequest(tx.userId, tx.amount, tx.currency, tx.key)) in came
  }

  ghost predicate WalletAsked(came: set<Proc>, a: Wallet) {
    WFind(a.userId, a.currency, a.tag) in came || WEnsure(a.userId, a.currency, a.tag) in came
  }

  /** A failed deposit was declined before it had a reference, or its expiry was announced. */
  ghost predicate FailureAsked(came: set<Proc>, tx: Transaction) {
    tx.status == Failed ==>
      tx.failureReason.Some?
      && (tx.providerRef.Some? ==> FFind(tx.providerRef.value, tx.failureReason.value) in came)
  }

  /** The payment of deposit `t` was announced under the reference the row has. */
  ghost predicate PaymentCame(came: set<Proc>, transactions: map<Id, Transaction>, t: Id) {
    t in transactions && transactions[t].providerRef.Some? && SFind(transactions[t].providerRef.value) in came
  }

  ghost predicate PaidBy(came: set<Proc>, db: Db, e: LedgerEntry, t: Id) {
    Settled(db, e, t) && PaymentCame(came, db.transactions, t)
  }

  ghost predicate CreditsPaid(came: set<Proc>, db: Db) {
    forall i :: 0 <= i < |db.ledger| && db.ledger[i].kind == Deposit ==>
      exists t :: PaidBy(came, db, db.ledger[i], t)
  }

  ghost predicate TransfersAsked(came: set<Proc>, db: Db) {
    forall t :: t in db.transfers ==> TransferAsked(came, db.wallets, db.transfers[t])
  }

  ghost predicate TransactionsAsked(came: set<Proc>, db: Db) {
    forall t :: t in db.transactions ==>
      DepositAsked(came, db.transactions[t]) && FailureAsked(came, db.transactions[t])
  }

  ghost predicate WalletsAsked(came: set<Proc>, db: Db) {
    forall w :: w in db.wallets ==> WalletAsked(came, db.wallets[w])
  }

  ghost predicate StoreAsked(came: set<Proc>, db: Db) {
    CreditsPaid(came, db) && TransfersAsked(came, db) && TransactionsAsked(came, db) && WalletsAsked(came, db)
  }

  // ---- What each process still carries of its request ----

  ghost predicate Addressed(came: set<Proc>, db: Db, req: TransferRequest, toId: Id) {
    TFindRecipient(req) in came && toId in db.wallets && db.wallets[toId].tag == req.toWalletTag
  }

  /** A fresh row, whose reference its creator may still set. */
  predicate Unreferenced(db: Db, t: Id) {
    t in db.transactions && db.transactions[t].providerRef.None? && db.transactions[t].status == Pending
  }

  ghost predicate ProcAsked(came: set<Proc>, db: Db, proc: Proc) {
    match proc
    case TFindRecipient(_) => proc in came
    case TFindExisting(req, toId, _) => Addressed(came, db, req, toId)
    case TFindSender(req, toId, _) => Addressed(came, db, req, toId)
    case TCreate(req, toId, _, _) => Addressed(came, db, req, toId)
    case SFind(_) => proc in came
    case SFindWallet(t, _) => PaymentCame(came, db.transactions, t)
    case SLock(t, _, _) => PaymentCame(came, db.transactions, t)
    case SCommit(t, _, _, _) => PaymentCame(came, db.transactions, t)
    case FFind(_, _) => proc in came
    case FWrite(t, reason) =>
      t in db.transactions
      && (db.transactions[t].providerRef.Some? ==> FFind(db.transactions[t].providerRef.value, reason) in came)
    case DFindExisting(_) => proc in came
    case DFindWallet(dep) => DFindExisting(dep) in came
    case DCreate(dep) => DFindExisting(dep) in came
    case DGateway(t) => Unreferenced(db, t)
    case DSetRef(t, _) => Unreferenced(db, t)
    case WFind(_, _, _) => proc in came
    case WEnsure(userId, currency, tag) => WFind(userId, currency, tag) in came || proc in came
    case WInsert(userId, currency, tag) =>
      WFind(userId, currency, tag) in came || WEnsure(userId, currency, tag) in came
    case _ => true
  }

  ghost predicate ProcsAsked(came: set<Proc>, s: State) {
    forall p :: p in s.procs ==> ProcAsked(came, s.db, s.procs[p])
  }

  /** The deposit whose reference a process may still set. */
  function Setter(proc: Proc): Option<Id> {
    match proc
    case DGateway(t) => Some(t)
    case DSetRef(t, _) => Some(t)
    case _ => None
  }

  /** The deposit whose reference a process may still set, or that it is about to fail. */
  function Decider(proc: Proc): Option<Id> {
    match proc
    case FWrite(t, _) => Some(t)
    case _ => Setter(proc)
  }

  /** While a deposit's reference may still be set, no other process sets it or fails the deposit. */
  ghost predicate OneSetter(procs: map<nat, Proc>) {
    forall p, q :: p in procs && q in procs && p != q && Setter(procs[p]).Some? ==>
      Setter(procs[p]) != Decider(procs[q])
  }

  ghost predicate AskedInv(came: set<Proc>, s: State) {
    StoreAsked(came, s.db) && ProcsAsked(came, s) && OneSetter(s.procs)
  }

  // ---- More requests ----

  lemma MoreCame(came: set<Proc>, more: set<Proc>, s: State)
    requires AskedInv(came, s) && came <= more
    ensures AskedInv(more, s)
  {
    forall i | 0 <= i < |s.db.ledger| && s.db.ledger[i].kind == Deposit
      ensures exists t :: PaidBy(more, s.db, s.db.ledger[i], t)
    {
      var t :| PaidBy(came, s.db, s.db.ledger[i], t);
      assert PaidBy(more, s.db, s.db.ledger[i], t);
    }
    forall t | t in s.db.transfers
      ensures TransferAsked(more, s.db.wallets, s.db.transfers[t])
    {
      assert TransferAsked(came, s.db.wallets, s.db.transfers[t]);
    }
    forall p | p in s.procs
      ensures ProcAsked(more, s.db, s.procs[p])
    {
      assert ProcAsked(came, s.db, s.procs[p]);
    }
  }

  // ---- Steps that write nothing ----

  lemma MovedAsked(came: set<Proc>, s: State, t: State, p: nat, proc: Proc)
    requires AskedInv(came, s) && t.db == s.db && t.procs == s.procs[p := proc]
    requires ProcAsked(came, s.db, proc)
    requires Setter(proc).Some? ==> p in s.procs && Setter(s.procs[p]) == Setter(proc)
    requires Decider(proc).Some? && Setter(proc).None? ==>
      (p in s.procs && Setter(s.procs[p]) == Decider(proc)) || !Unreferenced(s.db, Decider(proc).value)
    ensures AskedInv(came, t)
  {
    forall q, r | q in t.procs && r in t.procs && q != r && Setter(t.procs[q]).Some?
      ensures Setter(t.procs[q]) != Decider(t.procs[r])
    {
      if q != p {
        assert ProcAsked(came, s.db, s.procs[q]);
      }
    }
    hide StoreAsked;
    assert ProcsAsked(came, t);
  }

  /** The process `p` alone moves on, still carrying its request, and becomes no setter it was not. */
  ghost predicate Carries(came: set<Proc>, s: State, p: nat, t: State) {
    && p in s.procs && p in t.procs && t.procs == s.procs[p := t.procs[p]] && ProcAsked(came, s.db, t.procs[p])
    && (Setter(t.procs[p]).Some? ==> Setter(s.procs[p]) == Setter(t.procs[p]))
    && (Decider(t.procs[p]).Some? && Setter(t.procs[p]).None? ==>
          Setter(s.procs[p]) == Decider(t.procs[p]) || !Unreferenced(s.db, Decider(t.procs[p]).value))
  }

  predicate OfTransfer(proc: Proc) {
    proc.TFindRecipient? || proc.TFindExisting? || proc.TFindSender? || proc.TLockFirst? || proc.TLockSecond?
  }

  predicate OfPayment(proc: Proc) {
    proc.SFind? || proc.SFindWallet? || proc.SLock? || proc.FFind?
  }

  predicate OfCache(proc: Proc) {
    proc.Invalidate? || proc.BGet? || proc.BRead? || proc.BFill?
  }

  lemma TransferCarries(came: set<Proc>, s: State, p: nat, id: Id, gateway: Gateway)
    requires CanGo(s, p, id, gateway) && OfTransfer(s.procs[p]) && ProcAsked(came, s.db, s.procs[p])
    ensures Carries(came, s, p, Next(s, p, id, gateway))
  {
    hide FindWallet, LockOrder, TransferKeyUsed, InsertTransfer, CommitRunning, CommitDeposit, Statement, DropKey,
      GetCached, ReadBalance, FillCache, AfterGateway, IfPending, FindSettlementWallet;
    match s.procs[p]
    case TFindRecipient(req) =>
    case TFindExisting(req, toId, toUserId) =>
    case TFindSender(req, toId, toUserId) =>
    case TLockFirst(x) =>
    case TLockSecond(x, firstRead) =>
  }

  lemma PaymentCarries(came: set<Proc>, s: State, p: nat, id: Id, gateway: Gateway)
    requires CanGo(s, p, id, gateway) && OfPayment(s.procs[p]) && ProcAsked(came, s.db, s.procs[p])
    ensures Carries(came, s, p, Next(s, p, id, gateway))
  {
    hide FindWallet, InsertTransfer, CommitRunning, CommitDeposit, Statement, FindRecipient, FindExisting, FindSender,
      DropKey, GetCached, ReadBalance, FillCache, AfterGateway;
    match s.procs[p]
    case SFind(providerRef) =>
    case SFindWallet(txId, tx) =>
    case SLock(txId, tx, walletId) =>
    case FFind(providerRef, reason) =>
  }

  lemma CacheCarries(came: set<Proc>, s: State, p: nat, id: Id, gateway: Gateway)
    requires CanGo(s, p, id, gateway) && OfCache(s.procs[p])
    ensures Carries(came, s, p, Next(s, p, id, gateway))
  {
    hide FindWallet, BalanceKey, InsertTransfer, CommitRunning, CommitDeposit, Statement, FindRecipient, FindExisting,
      FindSender, Lock, AfterGateway, IfPending, FindSettlementWallet;
    match s.procs[p]
    case Invalidate(keys) =>
    case BGet(userId, currency) =>
    case BRead(userId, currency) =>
    case BFill(userId, currency, seen) =>
  }

  lemma DepositCarries(came: set<Proc>, s: State, p: nat, id: Id, gateway: Gateway)
    requires CanGo(s, p, id, gateway) && ProcAsked(came, s.db, s.procs[p])
    requires s.procs[p].DFindExisting? || s.procs[p].DFindWallet? || s.procs[p].DGateway?
    ensures Carries(came, s, p, Next(s, p, id, gateway))
  {
    hide FindWallet, TransactionKeyUsed, InsertTransfer, CommitRunning, CommitDeposit, Statement, FindRecipient,
      FindExisting, FindSender, Lock, IfPending, FindSettlementWallet, DropKey, GetCached, ReadBalance, FillCache;
    match s.procs[p]
    case DFindExisting(dep) =>
    case DFindWallet(dep) =>
    case DGateway(txId) =>
  }

  lemma OtherCarries(came: set<Proc>, s: State, p: nat, id: Id, gateway: Gateway)
    requires CanGo(s, p, id, gateway) && ProcAsked(came, s.db, s.procs[p])
    requires s.procs[p].WFind? || s.procs[p].WEnsure?
    ensures Carries(came, s, p, Next(s, p, id, gateway))
  {
    hide FindWallet, InsertTransfer, CommitRunning, CommitDeposit, Statement, FindRecipient, FindExisting, FindSender,
      Lock, IfPending, FindSettlementWallet, DropKey, GetCached, ReadBalance, FillCache, AfterGateway;
    match s.procs[p]
    case WFind(userId, currency, tag) =>
    case WEnsure(userId, currency, tag) =>
  }

  lemma ReadAsked(came: set<Proc>, s: State, p: nat, id: Id, gateway: Gateway)
    requires AskedInv(came, s) && CanGo(s, p, id, gateway) && !Writes(s.procs[p])
    ensures AskedInv(came, Next(s, p, id, gateway))
  {
    var t := Next(s, p, id, gateway);
    ReadsAreIdle(s, p, id, gateway);
    var c := s.procs[p];
    assert ProcAsked(came, s.db, c) && !c.Done?;
    hide Next, ProcAsked, AskedInv, CanGo;
    if OfTransfer(c) {
      TransferCarries(came, s, p, id, gateway);
    } else if OfPayment(c) {
      PaymentCarries(came, s, p, id, gateway);
    } else if OfCache(c) {
      CacheCarries(came, s, p, id, gateway);
    } else if c.DFindExisting? || c.DFindWallet? || c.DGateway? {
      DepositCarries(came, s, p, id, gateway);
    } else {
      OtherCarries(came, s, p, id, gateway);
    }
    MovedAsked(came, s, t, p, t.procs[p]);
  }

  // ---- Steps that write ----

  /** The operation a process is about to issue. */
  function Issued(proc: Proc, id: Id): Op
    requires Writes(proc)
  {
    match proc
    case TCreate(req, _, toUserId, _) =>
      OpCreateTransfer(id, NewTransfer(req.fromUserId, toUserId, req.amount, req.currency, req.key))
    case TCommit(x, _, _) => OpExecute(x.id, x.row, x.fromId, x.toId)
    case SCommit(t, tx, walletId, _) => OpSettle(walletId, t, tx)
    case FWrite(t, reason) => OpFail(t, reason)
    case DCreate(dep) => OpCreateTransaction(id, dep.userId, dep.amount, dep.currency, dep.key)
    case DSetRef(t, providerRef) => OpSetProviderRef(t, providerRef)
    case WInsert(userId, currency, tag) => OpInsertWallet(id, userId, currency, tag)
  }

  /** A step that writes commits what it issues, or ends the process when that is refused. */
  lemma WriteIs(s: State, p: nat, id: Id, gateway: Gateway)
    requires CanGo(s, p, id, gateway) && Writes(s.procs[p]) && ProcOk(s.db, s.procs[p])
    ensures var t := Next(s, p, id, gateway);
      var outcome := Apply(s.db, Issued(s.procs[p], id));
      && p in t.procs && t.procs == s.procs[p := t.procs[p]]
      && t.db == (if outcome.Ok? then outcome.value else s.db)
      && (t.procs[p].TLockFirst? || t.procs[p].Invalidate? || t.procs[p].Done?
          || (s.procs[p].DCreate? && outcome.Ok? && t.procs[p] == DGateway(id)))
  {
    hide Apply, CommitSettlement, CommitTransfer;
    match s.procs[p]
    case TCommit(x, firstRead, secondRead) => TransferAtomic(s.db, x, firstRead, secondRead);
    case SCommit(txId, tx, walletId, balanceRead) => SettlementAtomic(s.db, txId, tx, walletId, balanceRead);
    case _ =>
  }

  /** The deposit whose row an operation may change. */
  function Rewrites(op: Op): Option<Id> {
    match op
    case OpSettle(_, t, _) => Some(t)
    case OpFail(t, _) => Some(t)
    case OpSetProviderRef(t, _) => Some(t)
    case _ => None
  }

  /** What an operation leaves of the deposits: rows it does not name, and references unless it sets one. */
  ghost predicate DepositsKept(a: Db, b: Db, op: Op) {
    forall t :: t in a.transactions ==>
      && t in b.transactions
      && (Some(t) != Rewrites(op) ==> b.transactions[t] == a.transactions[t])
      && (!op.OpSetProviderRef? ==> b.transactions[t].providerRef == a.transactions[t].providerRef)
  }

  lemma OpKeepsDeposits(db: Db, op: Op, d: Db)
    requires Apply(db, op) == Ok(d)
    ensures DepositsKept(db, d, op)
  {
    hide JsNumber.Round, ExecuteTransfer, LedgerKeyUsed;
    match op
    case OpExecute(id, row, fromId, toId) => ExecuteKeepsTransactions(db, op, d);
    case _ =>
  }

  lemma ExecuteKeepsTransactions(db: Db, op: Op, d: Db)
    requires op.OpExecute? && Apply(db, op) == Ok(d)
    ensures d.transactions == db.transactions
  {
    hide JsNumber.Round, LedgerKeyUsed;
  }

  /** An operation of process `p` leaves the deposits other processes rely on. */
  lemma OthersAsked(came: set<Proc>, s: State, p: nat, id: Id, d: Db)
    requires AskedInv(came, s) && p in s.procs && Writes(s.procs[p])
    requires Apply(s.db, Issued(s.procs[p], id)) == Ok(d)
    ensures forall q :: q in s.procs && q != p ==> ProcAsked(came, d, s.procs[q])
  {
    hide StoreAsked;
    var op := Issued(s.procs[p], id);
    OpKeepsDeposits(s.db, op, d);
    EveryOpGrows(s.db, op);
    hide Apply;
    assert ProcAsked(came, s.db, s.procs[p]);
    forall q | q in s.procs && q != p
      ensures ProcAsked(came, d, s.procs[q])
    {
      assert ProcAsked(came, s.db, s.procs[q]);
      hide ProcAsked, Issued, WalletsGrow, DepositsKept;
      if OnDeposit(s.procs[q]).None? {
        WithoutDepositAsked(came, s.db, d, s.procs[q]);
      } else {
        DepositOfOtherAsked(came, s.db, s.procs[p], op, d, s.procs[q], id);
      }
    }
  }

  lemma WithoutDepositAsked(came: set<Proc>, db: Db, d: Db, proc: Proc)
    requires ProcAsked(came, db, proc) && OnDeposit(proc).None? && WalletsGrow(db.wallets, d.wallets)
    ensures ProcAsked(came, d, proc)
  {
    match proc
    case TFindExisting(req, toId, _) => assert toId in d.wallets;
    case TFindSender(req, toId, _) => assert toId in d.wallets;
    case TCreate(req, toId, _, _) => assert toId in d.wallets;
    case _ =>
  }

  /** The deposit row a process relies on. */
  function OnDeposit(proc: Proc): Option<Id> {
    match proc
    case SFindWallet(t, _) => Some(t)
    case SLock(t, _, _) => Some(t)
    case SCommit(t, _, _, _) => Some(t)
    case _ => Decider(proc)
  }

  /** The operation of another process sets no reference the process relies on, and leaves the row
      alone while the process may still set its reference. */
  lemma DepositUntouched(came: set<Proc>, db: Db, mine: Proc, op: Op, d: Db, proc: Proc, id: Id)
    requires Writes(mine) && op == Issued(mine, id) && ProcAsked(came, db, mine) && ProcAsked(came, db, proc)
    requires Setter(mine).Some? ==> Setter(mine) != Decider(proc)
    requires Setter(proc).Some? ==> Setter(proc) != Decider(mine)
    requires OnDeposit(proc).Some? && DepositsKept(db, d, op)
    ensures var t := OnDeposit(proc).value;
      && t in db.transactions && t in d.transactions
      && d.transactions[t].providerRef == db.transactions[t].providerRef
      && (Setter(proc).Some? ==> d.transactions[t] == db.transactions[t])
  {
    assert OnDeposit(proc).value in db.transactions;
    match mine
    case DSetRef(t, providerRef) =>
    case SCommit(t, tx, walletId, balanceRead) =>
    case FWrite(t, reason) =>
    case _ => assert Rewrites(op).None?;
  }

  lemma DepositOfOtherAsked(came: set<Proc>, db: Db, mine: Proc, op: Op, d: Db, proc: Proc, id: Id)
    requires Writes(mine) && op == Issued(mine, id) && ProcAsked(came, db, mine) && ProcAsked(came, db, proc)
    requires Setter(mine).Some? ==> Setter(mine) != Decider(proc)
    requires Setter(proc).Some? ==> Setter(proc) != Decider(mine)
    requires OnDeposit(proc).Some? && DepositsKept(db, d, op)
    ensures ProcAsked(came, d, proc)
  {
    hide DepositsKept, Issued;
    DepositUntouched(came, db, mine, op, d, proc, id);
  }

  // ---- What the database gains by a commit was asked for ----

  /** Rows and entries an operation adds, each kind by one operation only. */
  ghost predicate AddsOnly(a: Db, b: Db, op: Op) {
    && (forall w :: w in b.wallets && w !in a.wallets ==> op.OpInsertWallet?)
    && (forall t :: t in b.transactions && t !in a.transactions ==> op.OpCreateTransaction?)
    && (forall t :: t in b.transfers && t !in a.transfers ==> op.OpCreateTransfer?)
    && (forall i :: |a.ledger| <= i < |b.ledger| && b.ledger[i].kind == Deposit ==> op.OpSettle?)
  }

  lemma OpAddsOnly(db: Db, op: Op, d: Db)
    requires Apply(db, op) == Ok(d)
    ensures AddsOnly(db, d, op)
  {
    hide JsNumber.Round, LedgerKeyUsed;
    match op
    case OpSettle(walletId, txId, tx) =>
    case OpExecute(id, row, fromId, toId) =>
    case _ =>
  }

  lemma WalletsStayAsked(came: set<Proc>, db: Db, mine: Proc, id: Id, d: Db)
    requires WalletsAsked(came, db) && Writes(mine) && ProcAsked(came, db, mine)
    requires Apply(db, Issued(mine, id)) == Ok(d)
    ensures WalletsAsked(came, d)
  {
    var op := Issued(mine, id);
    OpAddsOnly(db, op, d);
    EveryOpGrows(db, op);
    if !op.OpInsertWallet? {
      hide Apply, Issued, ProcAsked;
      assert forall w :: w in d.wallets ==> w in db.wallets && WalletKept(db.wallets[w], d.wallets[w]);
    }
  }

  lemma TransferStaysAsked(came: set<Proc>, a: map<Id, Wallet>, b: map<Id, Wallet>, row: Transfer, later: Transfer)
    requires TransferAsked(came, a, row) && WalletsGrow(a, b) && TransferKept(row, later)
    ensures TransferAsked(came, b, later)
  {
    var req, w :| && TFindRecipient(req) in came && TaggedFor(a, w, req.toWalletTag, row.toUserId, req.currency)
                  && row.fromUserId == req.fromUserId && row.amount == req.amount && row.currency == req.currency
                  && row.key == req.key && row.toUserId != req.fromUserId;
    assert TaggedFor(b, w, req.toWalletTag, later.toUserId, req.currency);
  }

  lemma TransfersStayAsked(came: set<Proc>, db: Db, mine: Proc, id: Id, d: Db)
    requires TransfersAsked(came, db) && Writes(mine) && ProcAsked(came, db, mine) && ProcOk(db, mine)
    requires Apply(db, Issued(mine, id)) == Ok(d)
    ensures TransfersAsked(came, d)
  {
    var op := Issued(mine, id);
    OpAddsOnly(db, op, d);
    EveryOpGrows(db, op);
    if mine.TCreate? {
      assert TaggedFor(d.wallets, mine.toId, mine.req.toWalletTag, mine.toUserId, mine.req.currency);
    }
    forall t | t in d.transfers
      ensures TransferAsked(came, d.wallets, d.transfers[t])
    {
      if t in db.transfers {
        hide Apply, Issued, ProcAsked, ProcOk;
        TransferStaysAsked(came, db.wallets, d.wallets, db.transfers[t], d.transfers[t]);
      } else {
        assert mine.TCreate?;
        assert d.transfers[t] == op.row;
      }
    }
  }

  lemma TransactionsStayAsked(came: set<Proc>, db: Db, mine: Proc, id: Id, d: Db)
    requires TransactionsAsked(came, db) && Writes(mine) && ProcAsked(came, db, mine)
    requires Apply(db, Issued(mine, id)) == Ok(d)
    ensures TransactionsAsked(came, d)
  {
    var op := Issued(mine, id);
    OpAddsOnly(db, op, d);
    OpKeepsDeposits(db, op, d);
    hide Apply, AddsOnly;
    if Rewrites(op).Some? && Rewrites(op).value in db.transactions {
      DecidedAsked(came, db, mine, id, d);
    } else if mine.DCreate? {
      NewDepositAsked(came, db, mine, id, d);
    } else {
      hide Issued, ProcAsked, Rewrites, DepositAsked, FailureAsked;
      NoNewDeposits(db, op, d);
    }
  }

  lemma NoNewDeposits(db: Db, op: Op, d: Db)
    requires !op.OpCreateTransaction? && AddsOnly(db, d, op) && DepositsKept(db, d, op)
    ensures d.transactions.Keys == db.transactions.Keys
    ensures (forall t :: t in db.transactions ==> Some(t) != Rewrites(op)) ==> d.transactions == db.transactions
  {
  }

  lemma NewDepositAsked(came: set<Proc>, db: Db, mine: Proc, id: Id, d: Db)
    requires TransactionsAsked(came, db) && mine.DCreate? && ProcAsked(came, db, mine)
    requires Apply(db, Issued(mine, id)) == Ok(d)
    ensures TransactionsAsked(came, d)
  {
  }

  /** The one row an operation settles, fails or gives its reference. */
  lemma DecidedAsked(came: set<Proc>, db: Db, mine: Proc, id: Id, d: Db)
    requires TransactionsAsked(came, db) && Writes(mine) && ProcAsked(came, db, mine)
    requires Apply(db, Issued(mine, id)) == Ok(d)
    requires var op := Issued(mine, id); Rewrites(op).Some? && Rewrites(op).value in db.transactions
    ensures TransactionsAsked(came, d)
  {
    var op := Issued(mine, id);
    var u := Rewrites(op).value;
    hide Apply, Issued, ProcAsked, DepositAsked, FailureAsked;
    DecidedRowIs(db, op, d);
    DecidedRow(came, db, mine, id, d);
  }

  lemma DecidedRow(came: set<Proc>, db: Db, mine: Proc, id: Id, d: Db)
    requires TransactionsAsked(came, db) && Writes(mine) && ProcAsked(came, db, mine)
    requires Apply(db, Issued(mine, id)) == Ok(d)
    requires var op := Issued(mine, id); Rewrites(op).Some? && Rewrites(op).value in db.transactions
    ensures var u := Rewrites(Issued(mine, id)).value;
      u in d.transactions && DepositAsked(came, d.transactions[u]) && FailureAsked(came, d.transactions[u])
  {
    var op := Issued(mine, id);
    DecidedRowIs(db, op, d);
    assert ProcAsked(came, db, mine);
    hide Apply;
  }

  lemma DecidedRowIs(db: Db, op: Op, d: Db)
    requires Apply(db, op) == Ok(d) && Rewrites(op).Some? && Rewrites(op).value in db.transactions
    ensures var u := Rewrites(op).value;
      var row := db.transactions[u];
      d.transactions == db.transactions[u :=
        match op
        case OpFail(_, reason) => row.(status := Failed, failureReason := Some(reason))
        case OpSetProviderRef(_, providerRef) => row.(providerRef := Some(providerRef))
        case _ => row.(status := Completed)]
  {
    hide JsNumber.Round, LedgerKeyUsed;
  }

  /** A credit stays paid for: its deposit keeps its request, its reference and its wallet. */
  lemma CreditStaysPaid(came: set<Proc>, a: Db, b: Db, e: LedgerEntry, t: Id)
    requires PaidBy(came, a, e, t) && Grows(a, b) && t in b.transactions
    requires b.transactions[t].providerRef == a.transactions[t].providerRef
    ensures PaidBy(came, b, e, t)
  {
  }

  lemma ReferenceStays(came: set<Proc>, db: Db, mine: Proc, id: Id, d: Db, t: Id)
    requires Writes(mine) && ProcAsked(came, db, mine) && PaymentCame(came, db.transactions, t)
    requires DepositsKept(db, d, Issued(mine, id))
    ensures t in d.transactions && d.transactions[t].providerRef == db.transactions[t].providerRef
  {
  }

  lemma CreditsStayPaid(came: set<Proc>, db: Db, mine: Proc, id: Id, d: Db)
    requires CreditsPaid(came, db) && Writes(mine) && ProcAsked(came, db, mine) && ProcOk(db, mine)
    requires Apply(db, Issued(mine, id)) == Ok(d)
    ensures CreditsPaid(came, d)
  {
    var op := Issued(mine, id);
    OpAddsOnly(db, op, d);
    OpKeepsDeposits(db, op, d);
    EveryOpGrows(db, op);
    forall i | 0 <= i < |d.ledger| && d.ledger[i].kind == Deposit
      ensures exists t :: PaidBy(came, d, d.ledger[i], t)
    {
      if i < |db.ledger| {
        assert d.ledger[i] == db.ledger[i];
        var t :| PaidBy(came, db, db.ledger[i], t);
        hide Apply, Issued, ProcAsked, ProcOk, Grows, DepositsKept, AddsOnly;
        ReferenceStays(came, db, mine, id, d, t);
        CreditStaysPaid(came, db, d, db.ledger[i], t);
      } else {
        assert mine.SCommit?;
        NewCreditPaid(came, db, mine, d);
      }
    }
  }

  lemma NewCreditPaid(came: set<Proc>, db: Db, mine: Proc, d: Db)
    requires mine.SCommit? && ProcAsked(came, db, mine) && ProcOk(db, mine)
    requires Apply(db, OpSettle(mine.walletId, mine.txId, mine.tx)) == Ok(d)
    ensures |d.ledger| == |db.ledger| + 1 && PaidBy(came, d, d.ledger[|db.ledger|], mine.txId)
  {
    hide JsNumber.Round, LedgerKeyUsed;
  }

  lemma StoreStaysAsked(came: set<Proc>, db: Db, mine: Proc, id: Id, d: Db)
    requires StoreAsked(came, db) && Writes(mine) && ProcAsked(came, db, mine) && ProcOk(db, mine)
    requires Apply(db, Issued(mine, id)) == Ok(d)
    ensures StoreAsked(came, d)
  {
    hide Apply, Issued, ProcAsked, ProcOk, CreditsPaid, TransfersAsked, TransactionsAsked, WalletsAsked;
    CreditsStayPaid(came, db, mine, id, d);
    TransfersStayAsked(came, db, mine, id, d);
    TransactionsStayAsked(came, db, mine, id, d);
    WalletsStayAsked(came, db, mine, id, d);
  }

  // ---- Every step ----

  lemma WriteAsked(came: set<Proc>, s: State, p: nat, id: Id, gateway: Gateway)
    requires AskedInv(came, s) && AllOk(s) && CanGo(s, p, id, gateway) && Writes(s.procs[p])
    ensures AskedInv(came, Next(s, p, id, gateway))
  {
    assert ProcOk(s.db, s.procs[p]) && p in s.procs;
    hide Next, AllOk, CanGo, AskedInv, ProcOk, Apply, Issued;
    WriteIs(s, p, id, gateway);
    WrittenAsked(came, s, p, id, Next(s, p, id, gateway));
  }

  lemma WrittenAsked(came: set<Proc>, s: State, p: nat, id: Id, t: State)
    requires AskedInv(came, s) && p in s.procs && Writes(s.procs[p]) && ProcOk(s.db, s.procs[p])
    requires p in t.procs && t.procs == s.procs[p := t.procs[p]]
    requires var outcome := Apply(s.db, Issued(s.procs[p], id));
      && t.db == (if outcome.Ok? then outcome.value else s.db)
      && (t.procs[p].TLockFirst? || t.procs[p].Invalidate? || t.procs[p].Done?
          || (s.procs[p].DCreate? && outcome.Ok? && t.procs[p] == DGateway(id)))
    ensures AskedInv(came, t)
  {
    assert ProcAsked(came, s.db, s.procs[p]);
    hide ProcOk, Apply, Issued, StoreAsked, ProcAsked, OneSetter;
    if Apply(s.db, Issued(s.procs[p], id)).Ok? {
      StoreStaysAsked(came, s.db, s.procs[p], id, t.db);
      OthersAsked(came, s, p, id, t.db);
    }
    if t.procs[p].DGateway? {
      NewSetter(came, s, p, id, t);
    } else {
      SettersGone(s.procs, p, t.procs[p]);
      NothingCarried(came, t.db, t.procs[p]);
    }
  }

  lemma NothingCarried(came: set<Proc>, db: Db, proc: Proc)
    requires proc.TLockFirst? || proc.Invalidate? || proc.Done?
    ensures ProcAsked(came, db, proc)
  {
  }

  lemma SettersGone(procs: map<nat, Proc>, p: nat, proc: Proc)
    requires OneSetter(procs) && Decider(proc).None?
    ensures OneSetter(procs[p := proc])
  {
  }

  /** A fresh deposit row: nobody else can be about to decide it. */
  lemma NewSetter(came: set<Proc>, s: State, p: nat, id: Id, t: State)
    requires ProcsAsked(came, s) && OneSetter(s.procs) && p in s.procs && s.procs[p].DCreate?
    requires Apply(s.db, Issued(s.procs[p], id)) == Ok(t.db) && t.procs == s.procs[p := DGateway(id)]
    ensures OneSetter(t.procs) && ProcAsked(came, t.db, DGateway(id))
  {
    forall q | q in s.procs && Decider(s.procs[q]).Some?
      ensures Decider(s.procs[q]) != Some(id)
    {
      assert ProcAsked(came, s.db, s.procs[q]);
    }
  }

  lemma StepAsked(came: set<Proc>, s: State, a: Action)
    requires AskedInv(came, s) && Inv(s) && Enabled(s, a)
    requires a.Arrive? ==> a.proc in came
    ensures AskedInv(came, Step(s, a))
  {
    hide StoreInv, LocksExact, OneRunner, Serial, StoreAsked, AllOk;
    match a
    case Arrive(p, proc) =>
      hide ProcsAsked, OneSetter;
      MovedAsked(came, s, Step(s, a), p, proc);
    case Go(p, id, gateway) =>
      hide ProcsAsked, OneSetter, Next;
      if Writes(s.procs[p]) {
        WriteAsked(came, s, p, id, gateway);
      } else {
        ReadAsked(came, s, p, id, gateway);
      }
    case Crash(p) =>
      hide ProcsAsked, OneSetter;
      MovedAsked(came, s, Step(s, a), p, Done);
    case Tick(_) =>
    case Evict(_) =>
  }

  lemma {:induction false} RunAsked(run: seq<Action>)
    ensures After(run).Some? ==> AskedInv(Came(run), After(run).value)
  {
    hide Step, Enabled, AskedInv, Inv;
    if run == [] {
      NothingAsked();
      assert Came(run) == {};
    } else if After(run).Some? {
      var before, a := run[..|run| - 1], run[|run| - 1];
      RunKeeps(before);
      RunAsked(before);
      assert run == before + [a];
      assert Came(before) <= Came(run);
      MoreCame(Came(before), Came(run), After(before).value);
      assert a.Arrive? ==> a.proc in Came(run);
      StepAsked(Came(run), After(before).value, a);
    }
  }

  lemma NothingAsked()
    ensures AskedInv({}, INITIAL)
  {
  }

  // ---- The guarantees ----

  /** Every row says what a request that arrived said: a transfer goes to the wallet with the tag named, a
      deposit has the amount asked for, a wallet starts under the tag given. A failed deposit that had
      a reference failed for the reason its expiry gave. */
  lemma RowsAsked(run: seq<Action>, t: Id)
    ensures After(run).Some? ==>
      var db, came := After(run).value.db, Came(run);
      && (t in db.transfers ==> TransferAsked(came, db.wallets, db.transfers[t]))
      && (t in db.wallets ==> WalletAsked(came, db.wallets[t]))
      && (t in db.transactions ==>
            var tx := db.transactions[t];
            && DFindExisting(DepositRequest(tx.userId, tx.amount, tx.currency, tx.key)) in came
            && (tx.status == Failed && tx.providerRef.Some? ==>
                  tx.failureReason.Some? && FFind(tx.providerRef.value, tx.failureReason.value) in came))
  {
    hide After, Came, CreditsPaid, ProcsAsked, OneSetter, WalletAsked, TransferAsked;
    RunAsked(run);
  }

  /** The entry credits the owner with what `dep` asked for, after a payment under the reference of its row. */
  ghost predicate CreditFor(came: set<Proc>, db: Db, e: LedgerEntry, dep: DepositRequest, t: Id) {
    && DFindExisting(dep) in came && PaymentCame(came, db.transactions, t) && db.transactions[t].key == dep.key
    && e.amount == dep.amount && e.currency == dep.currency && e.key == dep.key
    && Owns(db.wallets, e.walletId, dep.userId, dep.currency)
  }

  ghost predicate DebitFor(came: set<Proc>, db: Db, e: LedgerEntry, req: TransferRequest) {
    && TFindRecipient(req) in came
    && e.amount == req.amount && e.currency == req.currency && e.key == req.key + ":out"
    && Owns(db.wallets, e.walletId, req.fromUserId, req.currency)
  }

  ghost predicate ReceiptFor(came: set<Proc>, db: Db, e: LedgerEntry, req: TransferRequest) {
    && TFindRecipient(req) in came
    && e.amount == req.amount && e.currency == req.currency && e.key == req.key + ":in"
    && e.walletId in db.wallets && db.wallets[e.walletId].tag == req.toWalletTag
    && db.wallets[e.walletId].currency == req.currency && db.wallets[e.walletId].userId != req.fromUserId
  }

  /** Nothing moves that was not asked for: every ledger entry, in every run, is the credit of a deposit
      that was requested and whose payment was announced under its reference, or the debit of the sender
      or the credit of the wallet named in a transfer that was requested, for exactly its amount. */
  lemma EntriesAsked(run: seq<Action>, i: nat)
    ensures After(run).Some? && i < |After(run).value.db.ledger| ==>
      var db, came := After(run).value.db, Came(run);
      var e := db.ledger[i];
      match e.kind
      case Deposit => exists dep, t :: CreditFor(came, db, e, dep, t)
      case TransferOut => exists req :: DebitFor(came, db, e, req)
      case TransferIn => exists req :: ReceiptFor(came, db, e, req)
  {
    RunAsked(run);
    RunKeeps(run);
    hide After, Came, ProcsAsked, OneSetter, AllOk, LocksExact, OneRunner, Serial, RowsOk, EntriesOk, BalancesMatch,
      DepositsPosted, TransfersPosted, TransferEventsMatch, WalletsAsked;
    if After(run).Some? && i < |After(run).value.db.ledger| {
      EntryAsked(Came(run), After(run).value.db, i);
    }
  }

  lemma EntryAsked(came: set<Proc>, db: Db, i: nat)
    requires CreditsPaid(came, db) && TransfersAsked(came, db) && TransactionsAsked(came, db)
    requires LedgerExplained(db) && WalletsUnique(db.wallets) && i < |db.ledger|
    ensures var e := db.ledger[i];
      match e.kind
      case Deposit => exists dep, t :: CreditFor(came, db, e, dep, t)
      case TransferOut => exists req :: DebitFor(came, db, e, req)
      case TransferIn => exists req :: ReceiptFor(came, db, e, req)
  {
    var e := db.ledger[i];
    assert Explained(db, e);
    match e.kind
    case Deposit =>
      var t :| PaidBy(came, db, e, t);
      var tx := db.transactions[t];
      assert CreditFor(came, db, e, DepositRequest(tx.userId, tx.amount, tx.currency, tx.key), t);
    case TransferOut =>
      var t :| Debited(db, e, t);
      DebitAsked(came, db, e, t);
    case TransferIn =>
      var t :| Credited(db, e, t);
      ReceiptAsked(came, db, e, t);
  }

  lemma DebitAsked(came: set<Proc>, db: Db, e: LedgerEntry, t: Id)
    requires Debited(db, e, t) && TransferAsked(came, db.wallets, db.transfers[t])
    ensures exists req :: DebitFor(came, db, e, req)
  {
    var row := db.transfers[t];
    var req, w :| && TFindRecipient(req) in came
                  && TaggedFor(db.wallets, w, req.toWalletTag, row.toUserId, req.currency)
                  && row.fromUserId == req.fromUserId && row.amount == req.amount && row.currency == req.currency
                  && row.key == req.key && row.toUserId != req.fromUserId;
    assert DebitFor(came, db, e, req);
  }

  lemma ReceiptAsked(came: set<Proc>, db: Db, e: LedgerEntry, t: Id)
    requires Credited(db, e, t) && TransferAsked(came, db.wallets, db.transfers[t]) && WalletsUnique(db.wallets)
    ensures exists req :: ReceiptFor(came, db, e, req)
  {
    var row := db.transfers[t];
    var req, w :| && TFindRecipient(req) in came
                  && TaggedFor(db.wallets, w, req.toWalletTag, row.toUserId, req.currency)
                  && row.fromUserId == req.fromUserId && row.amount == req.amount && row.currency == req.currency
                  && row.key == req.key && row.toUserId != req.fromUserId;
    assert w == e.walletId;
    assert ReceiptFor(came, db, e, req);
  }
}
