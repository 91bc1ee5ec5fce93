/** The forward simulation: every step of the interleaved machine either leaves the database
    alone or performs one whole atomic operation on it. */
module Simulation {
  import opened Rows
  import opened Operations
  import opened LedgerViews
  import opened StoreInvariant
  import opened Protocol
  import opened ProtocolInvariant
  import opened Money
  import JsNumber

  predicate Idle(s: State, t: State) {
    t.db == s.db && t.log == s.log && t.times == s.times
  }

  /** `op`, issued under its guarantee, takes `s` to `t` in one step. */
  ghost predicate Performs(s: State, op: Op, t: State) {
    && OpOk(s.db, op) && Apply(s.db, op) == Ok(t.db)
    && t.log == s.log + [op]
    && t.times == Stamp(s.times, |t.db.ledger|, s.now)
  }

  ghost predicate Simulated(s: State, t: State) {
    Idle(s, t) || exists op :: Performs(s, op, t)
  }

  lemma FinishSimulated(s: State, p: nat, op: Op, proc: Proc)
    requires OpOk(s.db, op)
    ensures Simulated(s, Finish(s, p, op, Apply(s.db, op), proc))
  {
    hide OpOk;
    var t := Finish(s, p, op, Apply(s.db, op), proc);
    hide Apply;
    if Apply(s.db, op).Ok? {
      assert Performs(s, op, t);
    }
  }

  predicate Writes(proc: Proc) {
    proc.TCreate? || proc.TCommit? || proc.SCommit? || proc.FWrite? || proc.DCreate? || proc.DSetRef? || proc.WInsert?
  }

  lemma ReadsAreIdle(s: State, p: nat, id: Id, gateway: Gateway)
    requires CanGo(s, p, id, gateway) && !Writes(s.procs[p])
    ensures Idle(s, Next(s, p, id, gateway))
  {
  }

  lemma StatementSimulated(s: State, p: nat, id: Id, gateway: Gateway)
    requires CanGo(s, p, id, gateway) && ProcOk(s.db, s.procs[p])
    requires var c := s.procs[p]; c.TCreate? || c.FWrite? || c.DCreate? || c.DSetRef? || c.WInsert?
    ensures Simulated(s, Next(s, p, id, gateway))
  {
    hide Apply, Simulated, Finish;
    match s.procs[p]
    case TCreate(req, toId, toUserId, fromId) =>
      var row := NewTransfer(req.fromUserId, toUserId, req.amount, req.currency, req.key);
      FinishSimulated(s, p, OpCreateTransfer(id, row), TLockFirst(Running(id, row, fromId, toId)));
    case FWrite(txId, reason) => FinishSimulated(s, p, OpFail(txId, reason), Done);
    case DCreate(dep) =>
      FinishSimulated(s, p, OpCreateTransaction(id, dep.userId, dep.amount, dep.currency, dep.key), DGateway(id));
    case DSetRef(txId, providerRef) => FinishSimulated(s, p, OpSetProviderRef(txId, providerRef), Done);
    case WInsert(userId, currency, tag) => FinishSimulated(s, p, OpInsertWallet(id, userId, currency, tag), Done);
  }

  lemma CommitSimulated(s: State, p: nat, id: Id, gateway: Gateway)
    requires CanGo(s, p, id, gateway) && ProcOk(s.db, s.procs[p])
    requires s.procs[p].TCommit? || s.procs[p].SCommit?
    ensures Simulated(s, Next(s, p, id, gateway))
  {
    hide Apply, Simulated, Finish, CommitSettlement, CommitTransfer;
    match s.procs[p]
    case TCommit(x, firstRead, secondRead) =>
      CommitRunningIs(s, p, x, firstRead, secondRead);
      FinishSimulated(s, p, OpExecute(x.id, x.row, x.fromId, x.toId), Invalidate(TransferKeys(x.row)));
    case SCommit(txId, tx, walletId, balanceRead) =>
      SettlementAtomic(s.db, txId, tx, walletId, balanceRead);
      FinishSimulated(s, p, OpSettle(walletId, txId, tx), Invalidate({BalanceKey(tx.userId, tx.currency)}));
  }

  lemma NextSimulated(s: State, p: nat, id: Id, gateway: Gateway)
    requires AllOk(s) && CanGo(s, p, id, gateway)
    ensures Simulated(s, Next(s, p, id, gateway))
  {
    assert ProcOk(s.db, s.procs[p]);
    hide Next, ProcOk, AllOk;
    if !Writes(s.procs[p]) {
      ReadsAreIdle(s, p, id, gateway);
    } else if s.procs[p].TCommit? || s.procs[p].SCommit? {
      CommitSimulated(s, p, id, gateway);
    } else {
      StatementSimulated(s, p, id, gateway);
    }
  }

  lemma StepSimulated(s: State, a: Action)
    requires Inv(s) && Enabled(s, a)
    ensures Simulated(s, Step(s, a))
  {
    if a.Go? {
      hide StoreInv, LocksExact, OneRunner, Serial;
      NextSimulated(s, a.p, a.id, a.gateway);
    }
  }

  /** Serialisability: after every run the database is what the committed operations produce
      when executed atomically, one after the other, in commit order; and every balance a process has read
      under lock is still the committed one. */
  lemma Serialisable(run: seq<Action>)
    ensures After(run).Some? ==>
      var s := After(run).value;
      && Replay(EMPTY_DB, s.log) == Ok(s.db)
      && forall p :: p in s.procs ==>
           match s.procs[p]
           case TLockSecond(x, firstRead) => CurrentBalance(s.db, x.First(), firstRead)
           case TCommit(x, firstRead, secondRead) =>
             CurrentBalance(s.db, x.First(), firstRead) && CurrentBalance(s.db, x.Second(), secondRead)
           case SCommit(_, _, walletId, balanceRead) => CurrentBalance(s.db, walletId, balanceRead)
           case _ => true
  {
    RunKeeps(run);
    hide StoreInv, LocksExact, OneRunner, After;
    if After(run).Some? {
      var s := After(run).value;
      forall p | p in s.procs
        ensures ProcOk(s.db, s.procs[p])
      {
      }
    }
  }

  /** Mutual exclusion: no wallet row is locked by two processes. */
  lemma LocksExclude(run: seq<Action>, p: nat, q: nat)
    ensures After(run).Some? && p in After(run).value.procs && q in After(run).value.procs && p != q ==>
      HeldBy(After(run).value.procs[p]) !! HeldBy(After(run).value.procs[q])
  {
    RunKeeps(run);
    hide StoreInv, AllOk, OneRunner, Serial, After;
    if After(run).Some? && p in After(run).value.procs && q in After(run).value.procs && p != q {
      var s := After(run).value;
      forall w | w in HeldBy(s.procs[p])
        ensures w !in HeldBy(s.procs[q])
      {
        assert Holds(s.procs, p, w);
        assert s.locks[w] == p;
        assert !Holds(s.procs, q, w);
      }
    }
  }

  // ---- Histories only grow ----

  lemma SimulatedGrows(s: State, t: State)
    requires Simulated(s, t)
    ensures Grows(s.db, t.db)
  {
    if !Idle(s, t) {
      var op :| Performs(s, op, t);
      EveryOpGrows(s.db, op);
    }
  }

  /** Between any two points of a run: rows keep their request data, no deposit returns to
      PENDING, completed transfers stay completed, and ledger and outbox are only appended to. */
  lemma {:induction false} RunGrows(run: seq<Action>, earlier: nat)
    requires earlier <= |run|
    ensures After(run).Some? ==>
      After(run[..earlier]).Some? && Grows(After(run[..earlier]).value.db, After(run).value.db)
  {
    hide Step, Enabled, Grows;
    if earlier == |run| {
      assert run[..earlier] == run;
      if After(run).Some? {
        GrowsReflexive(After(run).value.db);
      }
    } else if After(run).Some? {
      var before := run[..|run| - 1];
      RunGrows(before, earlier);
      assert before[..earlier] == run[..earlier];
      RunKeeps(before);
      hide Inv, Simulated;
      var s, t := After(before).value, After(run).value;
      StepSimulated(s, run[|run| - 1]);
      SimulatedGrows(s, t);
      GrowsTransitive(After(run[..earlier]).value.db, s.db, t.db);
    }
  }

  // ---- Money over runs ----

  lemma WithinEarlier(a: Db, b: Db)
    requires Grows(a, b) && Within(b) && EntriesOk(b.ledger, b.wallets)
    ensures Within(a)
  {
    var more := b.ledger[|a.ledger|..];
    assert b.ledger == a.ledger + more;
    forall i | 0 <= i < |more|
      ensures more[i].amount >= 1
    {
      assert EntryOk(b.ledger[|a.ledger| + i], b.wallets);
    }
    forall c
      ensures DepositTotal(a.ledger, c) <= JsNumber.TWO53
    {
      DepositTotalMonotone(a.ledger, more, c);
    }
    forall t | t in a.transactions
      ensures a.transactions[t].amount <= JsNumber.TWO53
    {
      assert TransactionKept(a.transactions[t], b.transactions[t]);
    }
    forall t | t in a.transfers
      ensures a.transfers[t].amount <= JsNumber.TWO53
    {
      assert TransferKept(a.transfers[t], b.transfers[t]);
    }
  }

  lemma SimulatedKeepsMoney(s: State, t: State)
    requires StoreInv(s.db) && StoreInv(t.db) && MoneyInv(s.db) && Simulated(s, t) && Within(t.db) && Within(s.db)
    ensures MoneyInv(t.db)
  {
    hide StoreInv, MoneyInv, Within;
    if !Idle(s, t) {
      var op :| Performs(s, op, t);
      OpKeepsMoney(s.db, op, t.db);
    }
  }

  /** Whatever the interleaving, as long as deposits and requested amounts have stayed within
      the bound by the end of the run, money is conserved and the ledger is chained. */
  lemma {:induction false} RunKeepsMoney(run: seq<Action>)
    ensures After(run).Some? && Within(After(run).value.db) ==> MoneyInv(After(run).value.db)
  {
    hide Step, Enabled, MoneyInv, Within;
    if run == [] {
      EmptyMoney();
    } else if After(run).Some? && Within(After(run).value.db) {
      var before := run[..|run| - 1];
      var s, t := After(before).value, After(run).value;
      RunKeeps(before);
      RunKeeps(run);
      hide AllOk, LocksExact, OneRunner, Serial;
      StepSimulated(s, run[|run| - 1]);
      hide Simulated, IndexesHold, RowsOk, EntriesOk, BalancesMatch, DepositsPosted, TransfersPosted,
          LedgerExplained, TransferEventsMatch;
      SimulatedGrows(s, t);
      hide Grows;
      WithinEarlier(s.db, t.db);
      RunKeepsMoney(before);
      SimulatedKeepsMoney(s, t);
    }
  }
}
