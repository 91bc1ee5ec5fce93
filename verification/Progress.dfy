/** Lock ordering prevents deadlock, and every request that is not interrupted ends. */
module Progress {
  import opened Rows
  import opened Operations
  import opened StoreInvariant
  import opened Protocol
  import opened ProtocolInvariant
  import opened Totals
  import JsNumber
  import LexOrder

  predicate Unfinished(s: State, p: nat) {
    p in s.procs && s.procs[p] != Done
  }

  /** The row a process is about to lock, if any. */
  function Wanted(proc: Proc): Option<Id> {
    match proc
    case TLockFirst(x) => Some(x.First())
    case TLockSecond(x, _) => Some(x.Second())
    case SLock(_, _, walletId) => Some(walletId)
    case _ => None
  }

  predicate Blocked(s: State, p: nat) {
    p in s.procs && Wanted(s.procs[p]).Some? && !Free(s, Wanted(s.procs[p]).value, p)
  }

  lemma Runnable(s: State, p: nat) returns (id: Id, gateway: Gateway)
    requires AllOk(s) && Unfinished(s, p) && !Blocked(s, p)
    ensures CanGo(s, p, id, gateway)
  {
    assert ProcOk(s.db, s.procs[p]);
    hide AllOk;
    id, gateway := "", Threw;
    match s.procs[p]
    case SFind(providerRef) => id := PickRow(s.db, providerRef);
    case FFind(providerRef, _) => id := PickRow(s.db, providerRef);
    case Invalidate(keys) =>
      if keys != {} {
        id :| id in keys;
      }
    case _ =>
  }

  lemma PickRow(db: Db, providerRef: string) returns (id: Id)
    ensures PickOk(db, providerRef, id)
  {
    if t :| HasRef(db, t, providerRef) {
      id := t;
    } else {
      id := "";
    }
  }

  lemma SecondLockHigher(db: Db, x: Running)
    requires RunningOk(db, x)
    ensures LexOrder.Less(x.First(), x.Second())
  {
    LockOrderSorted(x.fromId, x.toId);
  }

  /** If everyone unfinished is blocked, every locked row is the first lock of a transfer that
      waits for a locked row with a larger id. */
  lemma WaitsHigher(s: State, w: Id)
    requires AllOk(s) && LocksExact(s.locks, s.procs)
    requires forall q :: Unfinished(s, q) ==> Blocked(s, q)
    requires w in s.locks
    ensures exists v :: v in s.locks && LexOrder.Less(w, v)
  {
    var q := s.locks[w];
    assert Holds(s.procs, q, w);
    assert Unfinished(s, q) && Blocked(s, q);
    assert ProcOk(s.db, s.procs[q]);
    hide AllOk, LocksExact;
    var x := s.procs[q].x;
    SecondLockHigher(s.db, x);
    assert x.Second() in s.locks;
  }

  /** Deadlock freedom: with any number of processes and any wallet pairs, as long as one
      process is unfinished some process can take its next step. */
  lemma SomeoneCanGo(s: State, p: nat) returns (q: nat, id: Id, gateway: Gateway)
    requires Inv(s) && Unfinished(s, p)
    ensures CanGo(s, q, id, gateway)
  {
    hide StoreInv, OneRunner, Serial;
    if r :| Unfinished(s, r) && !Blocked(s, r) {
      q := r;
      hide LocksExact;
      id, gateway := Runnable(s, r);
    } else {
      assert Blocked(s, p);
      var top := LexOrder.LargestExists(s.locks.Keys);
      WaitsHigher(s, top);
      hide AllOk, LocksExact;
      var v :| v in s.locks && LexOrder.Less(top, v);
      LexOrder.LessTotal(top, v);
      assert false;
    }
  }

  lemma DeadlockFree(run: seq<Action>, p: nat)
    ensures After(run).Some? && Unfinished(After(run).value, p) ==>
      exists q, id, gateway :: CanGo(After(run).value, q, id, gateway)
  {
    RunKeeps(run);
    hide After, Inv;
    if After(run).Some? && Unfinished(After(run).value, p) {
      var q, id, gateway := SomeoneCanGo(After(run).value, p);
    }
  }

  // ---- Every request ends ----

  /** An upper bound on the steps a process still takes. */
  function Rank(proc: Proc): nat {
    match proc
    case TFindRecipient(_) => 10
    case TFindExisting(_, _, _) => 9
    case TFindSender(_, _, _) => 8
    case TCreate(_, _, _, _) => 7
    case TLockFirst(_) => 6
    case TLockSecond(_, _) => 5
    case TCommit(_, _, _) => 4
    case SFind(_) => 7
    case SFindWallet(_, _) => 6
    case SLock(_, _, _) => 5
    case SCommit(_, _, _, _) => 4
    case FFind(_, _) => 2
    case FWrite(_, _) => 1
    case DFindExisting(_) => 5
    case DFindWallet(_) => 4
    case DCreate(_) => 3
    case DGateway(_) => 2
    case DSetRef(_, _) => 1
    case WFind(_, _, _) => 3
    case WEnsure(_, _, _) => 2
    case WInsert(_, _, _) => 1
    case Invalidate(keys) => 1 + |keys|
    case BGet(_, _) => 3
    case BRead(_, _) => 2
    case BFill(_, _, _) => 1
    case Done => 0
  }

  function Ranks(procs: map<nat, Proc>): map<nat, int> {
    map p | p in procs :: Rank(procs[p])
  }

  ghost function StepsLeft(s: State): int {
    Sum(Ranks(s.procs))
  }

  lemma KeysAtMostTwo(row: Transfer)
    ensures |TransferKeys(row)| <= 2
  {
    var a, b := BalanceKey(row.fromUserId, row.currency), BalanceKey(row.toUserId, row.currency);
    assert TransferKeys(row) == {a} + {b};
  }

  /** A process that reads or writes the balance cache. */
  predicate UsesCache(proc: Proc) {
    proc.BGet? || proc.BRead? || proc.BFill? || proc.Invalidate?
  }

  /** `p` moves on to something of lower rank and no other process moves; the cache and the
      answers are touched only by the steps that are about them. */
  predicate Advances(s: State, p: nat, t: State) {
    && p in s.procs && p in t.procs && t.procs == s.procs[p := t.procs[p]]
    && Rank(t.procs[p]) < Rank(s.procs[p])
    && t.now == s.now
    && (!UsesCache(s.procs[p]) ==>
          t.cache == s.cache && t.answers == s.answers && (UsesCache(t.procs[p]) ==> t.procs[p].Invalidate?))
  }

  predicate LowersTo(s: State, p: nat, proc: Proc) {
    p in s.procs && Rank(proc) < Rank(s.procs[p]) && (UsesCache(proc) ==> proc.Invalidate?)
  }

  lemma MoveAdvances(s: State, p: nat, proc: Proc)
    requires LowersTo(s, p, proc)
    ensures Advances(s, p, Moved(s, p, proc))
  {
  }

  lemma LockAdvances(s: State, p: nat, w: Id, proc: Proc)
    requires LowersTo(s, p, proc)
    ensures Advances(s, p, Lock(s, p, w, proc))
  {
  }

  lemma FinishAdvances(s: State, p: nat, op: Op, outcome: Result<Db>, proc: Proc)
    requires LowersTo(s, p, proc)
    ensures Advances(s, p, Finish(s, p, op, outcome, proc))
  {
  }

  lemma StatementAdvances(s: State, p: nat, op: Op, proc: Proc)
    requires LowersTo(s, p, proc)
    ensures Advances(s, p, Statement(s, p, op, proc))
  {
    FinishAdvances(s, p, op, Apply(s.db, op), proc);
  }

  lemma FindRecipientAdvances(s: State, p: nat, req: TransferRequest)
    requires p in s.procs && s.procs[p] == TFindRecipient(req)
    ensures Advances(s, p, FindRecipient(s, p, req))
  {
    hide Advances;
    MoveAdvances(s, p, Done);
    var r := FindByTag(s.db, req.toWalletTag);
    if r.Some? {
      MoveAdvances(s, p, TFindExisting(req, r.value, s.db.wallets[r.value].userId));
    }
  }

  lemma FindSenderAdvances(s: State, p: nat, req: TransferRequest, toId: Id, toUserId: Id)
    requires p in s.procs && s.procs[p] == TFindSender(req, toId, toUserId)
    ensures Advances(s, p, FindSender(s, p, req, toId, toUserId))
  {
    hide Advances;
    MoveAdvances(s, p, Done);
    var r := FindWallet(s.db, req.fromUserId, req.currency);
    if r.Some? {
      MoveAdvances(s, p, TCreate(req, toId, toUserId, r.value));
    }
  }

  lemma InsertTransferAdvances(s: State, p: nat, req: TransferRequest, toId: Id, toUserId: Id, fromId: Id, id: Id)
    requires p in s.procs && s.procs[p] == TCreate(req, toId, toUserId, fromId)
    ensures Advances(s, p, InsertTransfer(s, p, req, toId, toUserId, fromId, id))
  {
    hide Advances, Apply, Finish;
    var row := NewTransfer(req.fromUserId, toUserId, req.amount, req.currency, req.key);
    var op := OpCreateTransfer(id, row);
    FinishAdvances(s, p, op, Apply(s.db, op), TLockFirst(Running(id, row, fromId, toId)));
  }

  lemma CommitRunningAdvances(s: State, p: nat, x: Running, firstRead: int, secondRead: int)
    requires p in s.procs && s.procs[p] == TCommit(x, firstRead, secondRead)
    requires x.fromId in s.db.wallets && x.toId in s.db.wallets
    ensures Advances(s, p, CommitRunning(s, p, x, firstRead, secondRead))
  {
    hide Advances, CommitTransfer, Finish, TransferKeys;
    KeysAtMostTwo(x.row);
    var fromRead := if x.First() == x.fromId then firstRead else secondRead;
    var toRead := if x.First() == x.toId then firstRead else secondRead;
    FinishAdvances(s, p, OpExecute(x.id, x.row, x.fromId, x.toId),
      CommitTransfer(s.db, x.id, x.row, x.fromId, x.toId, TransferEvent(x.id, x.row), fromRead, toRead),
      Invalidate(TransferKeys(x.row)));
  }

  lemma CommitDepositAdvances(s: State, p: nat, txId: Id, tx: Transaction, walletId: Id, balanceRead: int)
    requires p in s.procs && s.procs[p] == SCommit(txId, tx, walletId, balanceRead) && walletId in s.db.wallets
    ensures Advances(s, p, CommitDeposit(s, p, txId, tx, walletId, balanceRead))
  {
    hide Advances, CommitSettlement, Finish;
    FinishAdvances(s, p, OpSettle(walletId, txId, tx),
      CommitSettlement(s.db, walletId, txId, tx, Deposit, JsNumber.Number(tx.amount), DepositEvent(walletId, tx),
          balanceRead),
      Invalidate({BalanceKey(tx.userId, tx.currency)}));
  }

  lemma FindSettlementWalletAdvances(s: State, p: nat, txId: Id, tx: Transaction)
    requires p in s.procs && s.procs[p] == SFindWallet(txId, tx)
    ensures Advances(s, p, FindSettlementWallet(s, p, txId, tx))
  {
    hide Advances;
    MoveAdvances(s, p, Done);
    var r := FindWallet(s.db, tx.userId, tx.currency);
    if r.Some? {
      MoveAdvances(s, p, SLock(txId, tx, r.value));
    }
  }

  lemma IfPendingAdvances(s: State, p: nat, providerRef: string, id: Id, proc: Proc)
    requires LowersTo(s, p, proc)
    ensures Advances(s, p, IfPending(s, p, providerRef, id, proc))
  {
    MoveAdvances(s, p, Done);
    MoveAdvances(s, p, proc);
  }

  lemma GetCachedAdvances(s: State, p: nat, userId: Id, currency: string)
    requires p in s.procs && s.procs[p] == BGet(userId, currency)
    ensures Advances(s, p, GetCached(s, p, userId, currency))
  {
  }

  lemma ReadBalanceAdvances(s: State, p: nat, userId: Id, currency: string)
    requires p in s.procs && s.procs[p] == BRead(userId, currency)
    ensures Advances(s, p, ReadBalance(s, p, userId, currency))
  {
  }

  lemma FillCacheAdvances(s: State, p: nat, userId: Id, currency: string, seen: Seen)
    requires p in s.procs && s.procs[p] == BFill(userId, currency, seen)
    ensures Advances(s, p, FillCache(s, p, userId, currency, seen))
  {
  }

  lemma DropKeyAdvances(s: State, p: nat, keys: set<string>, key: string)
    requires p in s.procs && s.procs[p] == Invalidate(keys) && (keys != {} ==> key in keys)
    ensures Advances(s, p, DropKey(s, p, keys, key))
  {
  }

  lemma TransferAdvances(s: State, p: nat, id: Id, gateway: Gateway)
    requires CanGo(s, p, id, gateway)
    requires var c := s.procs[p];
      c.TFindRecipient? || c.TFindExisting? || c.TFindSender? || c.TCreate?
      || c.TLockFirst? || c.TLockSecond? || c.TCommit?
    ensures Advances(s, p, Next(s, p, id, gateway))
  {
    hide Advances, FindRecipient, FindSender, InsertTransfer, Lock, CommitRunning;
    match s.procs[p]
    case TFindRecipient(req) => FindRecipientAdvances(s, p, req);
    case TFindExisting(req, toId, toUserId) =>
      MoveAdvances(s, p, Done);
      MoveAdvances(s, p, TFindSender(req, toId, toUserId));
    case TFindSender(req, toId, toUserId) => FindSenderAdvances(s, p, req, toId, toUserId);
    case TCreate(req, toId, toUserId, fromId) => InsertTransferAdvances(s, p, req, toId, toUserId, fromId, id);
    case TLockFirst(x) => LockAdvances(s, p, x.First(), TLockSecond(x, BalanceOf(s.db, x.First())));
    case TLockSecond(x, firstRead) =>
      LockAdvances(s, p, x.Second(), TCommit(x, firstRead, BalanceOf(s.db, x.Second())));
    case TCommit(x, firstRead, secondRead) => CommitRunningAdvances(s, p, x, firstRead, secondRead);
  }

  lemma WebhookAdvances(s: State, p: nat, id: Id, gateway: Gateway)
    requires CanGo(s, p, id, gateway)
    requires var c := s.procs[p]; c.SFind? || c.SFindWallet? || c.SLock? || c.SCommit? || c.FFind? || c.FWrite?
    ensures Advances(s, p, Next(s, p, id, gateway))
  {
    hide Advances, IfPending, FindSettlementWallet, Lock, CommitDeposit, Statement;
    match s.procs[p]
    case SFind(providerRef) => IfPendingAdvances(s, p, providerRef, id, SFindWallet(id, TransactionAt(s.db, id)));
    case SFindWallet(txId, tx) => FindSettlementWalletAdvances(s, p, txId, tx);
    case SLock(txId, tx, walletId) =>
      LockAdvances(s, p, walletId, SCommit(txId, tx, walletId, BalanceOf(s.db, walletId)));
    case SCommit(txId, tx, walletId, balanceRead) => CommitDepositAdvances(s, p, txId, tx, walletId, balanceRead);
    case FFind(providerRef, reason) => IfPendingAdvances(s, p, providerRef, id, FWrite(id, reason));
    case FWrite(txId, reason) => StatementAdvances(s, p, OpFail(txId, reason), Done);
  }

  lemma DepositAdvances(s: State, p: nat, id: Id, gateway: Gateway)
    requires CanGo(s, p, id, gateway)
    requires var c := s.procs[p]; c.DFindExisting? || c.DFindWallet? || c.DCreate? || c.DGateway? || c.DSetRef?
    ensures Advances(s, p, Next(s, p, id, gateway))
  {
    hide Advances, Moved, Statement;
    MoveAdvances(s, p, Done);
    match s.procs[p]
    case DFindExisting(dep) => MoveAdvances(s, p, DFindWallet(dep));
    case DFindWallet(dep) => MoveAdvances(s, p, DCreate(dep));
    case DCreate(dep) =>
      StatementAdvances(s, p, OpCreateTransaction(id, dep.userId, dep.amount, dep.currency, dep.key), DGateway(id));
    case DGateway(txId) => MoveAdvances(s, p, AfterGateway(txId, gateway));
    case DSetRef(txId, providerRef) => StatementAdvances(s, p, OpSetProviderRef(txId, providerRef), Done);
  }

  lemma WalletAdvances(s: State, p: nat, id: Id, gateway: Gateway)
    requires CanGo(s, p, id, gateway)
    requires var c := s.procs[p]; c.WFind? || c.WEnsure? || c.WInsert?
    ensures Advances(s, p, Next(s, p, id, gateway))
  {
    hide Advances, Moved, Statement;
    match s.procs[p]
    case WFind(userId, currency, tag) =>
      MoveAdvances(s, p, Done);
      MoveAdvances(s, p, WEnsure(userId, currency, tag));
    case WEnsure(userId, currency, tag) =>
      MoveAdvances(s, p, Done);
      MoveAdvances(s, p, WInsert(userId, currency, tag));
    case WInsert(userId, currency, tag) => StatementAdvances(s, p, OpInsertWallet(id, userId, currency, tag), Done);
  }

  lemma CacheAdvances(s: State, p: nat, id: Id, gateway: Gateway)
    requires CanGo(s, p, id, gateway) && UsesCache(s.procs[p])
    ensures Advances(s, p, Next(s, p, id, gateway))
  {
    hide Advances, DropKey, GetCached, ReadBalance, FillCache;
    match s.procs[p]
    case Invalidate(keys) => DropKeyAdvances(s, p, keys, id);
    case BGet(userId, currency) => GetCachedAdvances(s, p, userId, currency);
    case BRead(userId, currency) => ReadBalanceAdvances(s, p, userId, currency);
    case BFill(userId, currency, seen) => FillCacheAdvances(s, p, userId, currency, seen);
  }

  lemma NextAdvances(s: State, p: nat, id: Id, gateway: Gateway)
    requires CanGo(s, p, id, gateway)
    ensures Advances(s, p, Next(s, p, id, gateway))
  {
    hide Next, Advances;
    var c := s.procs[p];
    if UsesCache(c) {
      CacheAdvances(s, p, id, gateway);
    } else if c.WFind? || c.WEnsure? || c.WInsert? {
      WalletAdvances(s, p, id, gateway);
    } else if c.DFindExisting? || c.DFindWallet? || c.DCreate? || c.DGateway? || c.DSetRef? {
      DepositAdvances(s, p, id, gateway);
    } else if c.SFind? || c.SFindWallet? || c.SLock? || c.SCommit? || c.FFind? || c.FWrite? {
      WebhookAdvances(s, p, id, gateway);
    } else {
      TransferAdvances(s, p, id, gateway);
    }
  }

  lemma StepsLeftDecrease(s: State, p: nat, id: Id, gateway: Gateway)
    requires CanGo(s, p, id, gateway)
    ensures StepsLeft(Next(s, p, id, gateway)) < StepsLeft(s)
  {
    NextAdvances(s, p, id, gateway);
    var t := Next(s, p, id, gateway);
    hide Next, CanGo;
    assert Ranks(t.procs) == Ranks(s.procs)[p := Rank(t.procs[p])];
    SumPut(Ranks(s.procs), p, Rank(t.procs[p]));
  }

  lemma StepsLeftNonNegative(s: State)
    ensures StepsLeft(s) >= 0
  {
    SumNonNegative(Ranks(s.procs));
  }

  ghost predicate OnlySteps(run: seq<Action>) {
    forall i :: 0 <= i < |run| ==> run[i].Go?
  }

  /** Requests in progress cannot take more steps than their ranks add up to. */
  lemma {:induction false} StepsBounded(s: State, run: seq<Action>)
    requires OnlySteps(run)
    ensures Continue(s, run).Some? ==> |run| + StepsLeft(Continue(s, run).value) <= StepsLeft(s)
  {
    hide Next, CanGo, StepsLeft;
    if run == [] {
    } else if Continue(s, run).Some? {
      var before, a := run[..|run| - 1], run[|run| - 1];
      StepsBounded(s, before);
      StepsLeftDecrease(Continue(s, before).value, a.p, a.id, a.gateway);
    }
  }

  /** From every reachable state the requests in progress can all be brought to their end. */
  lemma {:induction false} AllCanFinish(s: State) returns (run: seq<Action>)
    requires Inv(s)
    ensures OnlySteps(run) && Continue(s, run).Some?
    ensures forall p :: p in s.procs ==> !Unfinished(Continue(s, run).value, p)
    decreases StepsLeft(s)
  {
    hide Inv, Next, CanGo;
    StepsLeftNonNegative(s);
    if p :| Unfinished(s, p) {
      var q, id, gateway := SomeoneCanGo(s, p);
      var a, t := Go(q, id, gateway), Next(s, q, id, gateway);
      NextKeeps(s, q, id, gateway);
      StepsLeftDecrease(s, q, id, gateway);
      NextAdvances(s, q, id, gateway);
      StepsLeftNonNegative(t);
      var rest := AllCanFinish(t);
      run := [a] + rest;
      ContinueCons(s, a, rest);
    } else {
      run := [];
    }
  }

  lemma {:induction false} ContinueCons(s: State, a: Action, rest: seq<Action>)
    requires Enabled(s, a)
    ensures Continue(s, [a] + rest) == Continue(Step(s, a), rest)
  {
    hide Enabled, Step;
    if rest == [] {
      assert [a] + rest == [a] && [a][..0] == [];
    } else {
      ContinueCons(s, a, rest[..|rest| - 1]);
      assert ([a] + rest)[..|rest|] == [a] + rest[..|rest| - 1];
    }
  }

}
