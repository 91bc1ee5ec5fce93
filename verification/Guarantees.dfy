/** What the platform promises its users, for every interleaving of any number of requests. */
module Guarantees {
  import opened Rows
  import opened Operations
  import opened LedgerViews
  import opened StoreInvariant
  import opened Protocol
  import opened ProtocolInvariant
  import opened Simulation
  import opened Money
  import opened Rounding
  import opened Conservation
  import JsNumber

  /** How many entries of a kind the ledger holds under a key. */
  function CountOf(ledger: seq<LedgerEntry>, kind: EntryKind, key: string): nat {
    if ledger == [] then 0
    else
      var e := ledger[|ledger| - 1];
      CountOf(ledger[..|ledger| - 1], kind, key) + if e.kind == kind && e.key == key then 1 else 0
  }

  lemma {:induction false} CountAtMostOne(ledger: seq<LedgerEntry>, kind: EntryKind, key: string)
    requires LedgerUnique(ledger)
    ensures CountOf(ledger, kind, key) <= 1
    ensures CountOf(ledger, kind, key) == 1 <==>
            exists i :: 0 <= i < |ledger| && ledger[i].kind == kind && ledger[i].key == key
  {
    if ledger == [] {
    } else {
      var prior, e := ledger[..|ledger| - 1], ledger[|ledger| - 1];
      CountAtMostOne(prior, kind, key);
      assert forall i :: 0 <= i < |prior| ==> prior[i] == ledger[i] && prior[i].key != e.key;
    }
  }

  // ---- Deposits ----

  lemma DepositEntryIsOwn(db: Db, t: Id, i: nat)
    requires TransactionsUnique(db.transactions) && LedgerExplained(db) && t in db.transactions
    requires i < |db.ledger| && db.ledger[i].kind == Deposit && db.ledger[i].key == db.transactions[t].key
    ensures IsDepositOf(db.ledger[i], db.transactions[t], db.wallets) && db.transactions[t].status != Pending
  {
    assert Explained(db, db.ledger[i]);
    var u :| Settled(db, db.ledger[i], u);
    assert u == t;
  }

  /** At most one Deposit entry, none while PENDING, exactly one once COMPLETED. */
  ghost predicate DepositAccounted(db: Db, tx: Transaction) {
    var n := CountOf(db.ledger, Deposit, tx.key);
    && n <= 1
    && (n == 1 <==> HasDeposit(db.ledger, tx, db.wallets))
    && (tx.status == Pending ==> n == 0)
    && (tx.status == Completed ==> n == 1 && tx.providerRef.Some?)
  }

  lemma DepositStatus(db: Db, t: Id)
    requires StoreInv(db) && t in db.transactions
    ensures DepositAccounted(db, db.transactions[t])
  {
    var tx := db.transactions[t];
    hide RowsOk, EntriesOk, BalancesMatch, TransfersPosted, TransferEventsMatch, WalletsUnique, TransfersUnique;
    CountAtMostOne(db.ledger, Deposit, tx.key);
    if i :| 0 <= i < |db.ledger| && db.ledger[i].kind == Deposit && db.ledger[i].key == tx.key {
      DepositEntryIsOwn(db, t, i);
    }
  }

  /** Exactly-once credit: however webhooks are duplicated, reordered or raced with an expiry,
      a deposit has at most one Deposit entry; while PENDING it has none; once COMPLETED it has
      exactly one and a recorded provider reference. */
  lemma CreditedAtMostOnce(run: seq<Action>, t: Id)
    ensures After(run).Some? && t in After(run).value.db.transactions ==>
      DepositAccounted(After(run).value.db, After(run).value.db.transactions[t])
  {
    hide StoreInv, DepositAccounted, After;
    if After(run).Some? && t in After(run).value.db.transactions {
      RunKeeps(run);
      DepositStatus(After(run).value.db, t);
    }
  }

  /** A deposit never returns to PENDING, and its Deposit entry is never removed. */
  lemma DepositNeverPendingAgain(run: seq<Action>, earlier: nat, t: Id)
    requires earlier <= |run|
    ensures After(run).Some? ==>
      && After(run[..earlier]).Some?
      && var a, b := After(run[..earlier]).value.db, After(run).value.db;
         t in a.transactions ==>
           && t in b.transactions && SameRequest(a.transactions[t], b.transactions[t])
           && (a.transactions[t].status != Pending ==> b.transactions[t].status != Pending)
           && (a.transactions[t].providerRef.Some? ==> b.transactions[t].providerRef.Some?)
           && a.ledger <= b.ledger
  {
    hide After;
    RunGrows(run, earlier);
  }

  predicate StatusIs(db: Db, t: Id, status: Status) {
    t in db.transactions && db.transactions[t].status == status
  }

  lemma OnlyFailUncompletes(db: Db, op: Op, d: Db, t: Id)
    requires Apply(db, op) == Ok(d) && StatusIs(db, t, Completed)
    ensures !StatusIs(d, t, Completed) <==> op.OpFail? && op.id == t
  {
  }

  /** COMPLETED is not final: a step takes a deposit out of COMPLETED exactly when it is the
      `failTransaction` write of a handler that had read PENDING earlier (the write is
      unconditional). Its credit stays. */
  lemma CompletedOverwrittenIff(run: seq<Action>, a: Action, t: Id)
    ensures After(run).Some? && Enabled(After(run).value, a) && StatusIs(After(run).value.db, t, Completed) ==>
      var s := After(run).value;
      && (!StatusIs(Step(s, a).db, t, Completed) <==> a.Go? && s.procs[a.p].FWrite? && s.procs[a.p].txId == t)
      && s.db.ledger <= Step(s, a).db.ledger
  {
    hide After, Inv;
    RunKeeps(run);
    if After(run).Some? && Enabled(After(run).value, a) && StatusIs(After(run).value.db, t, Completed) {
      var s := After(run).value;
      StepSimulated(s, a);
      SimulatedGrows(s, Step(s, a));
      UncompletingStep(s, a, t);
      hide Step, Enabled;
    }
  }

  lemma UncompletingStep(s: State, a: Action, t: Id)
    requires Enabled(s, a) && StatusIs(s.db, t, Completed) && Simulated(s, Step(s, a))
    ensures !StatusIs(Step(s, a).db, t, Completed) <==> a.Go? && s.procs[a.p].FWrite? && s.procs[a.p].txId == t
  {
    if a.Go? {
      if !Writes(s.procs[a.p]) {
        ReadsAreIdle(s, a.p, a.id, a.gateway);
        hide Next;
      } else if s.procs[a.p].FWrite? {
        OnlyFailUncompletes(s.db, OpFail(s.procs[a.p].txId, s.procs[a.p].reason), Step(s, a).db, t);
      } else {
        LoggedOp(s, a.p, a.id, a.gateway);
        hide Next;
        var next := Step(s, a);
        if next.db != s.db {
          var op :| Performs(s, op, next);
          assert next.log[|s.log|] == op;
          OnlyFailUncompletes(s.db, op, next.db, t);
        }
      }
    }
  }

  /** No process but one at `FWrite` logs a failure. */
  lemma LoggedOp(s: State, p: nat, id: Id, gateway: Gateway)
    requires CanGo(s, p, id, gateway) && Writes(s.procs[p]) && !s.procs[p].FWrite?
    ensures var t := Next(s, p, id, gateway);
      |t.log| == |s.log| + 1 ==> !t.log[|s.log|].OpFail?
  {
    hide Apply, CommitSettlement, CommitTransfer;
  }

  // ---- Transfers ----

  lemma DebitEntryIsOwn(db: Db, t: Id, i: nat)
    requires TransfersUnique(db.transfers) && LedgerExplained(db) && t in db.transfers && i < |db.ledger|
    requires db.ledger[i].kind == TransferOut && db.ledger[i].key == OutKey(db.transfers[t].key)
    ensures Debited(db, db.ledger[i], t)
  {
    assert Explained(db, db.ledger[i]);
    var u :| Debited(db, db.ledger[i], u);
    SuffixedKeysInjective(db.transfers[t].key, db.transfers[u].key);
  }

  lemma CreditEntryIsOwn(db: Db, t: Id, i: nat)
    requires TransfersUnique(db.transfers) && LedgerExplained(db) && t in db.transfers && i < |db.ledger|
    requires db.ledger[i].kind == TransferIn && db.ledger[i].key == InKey(db.transfers[t].key)
    ensures Credited(db, db.ledger[i], t)
  {
    assert Explained(db, db.ledger[i]);
    var u :| Credited(db, db.ledger[i], u);
    SuffixedKeysInjective(db.transfers[t].key, db.transfers[u].key);
  }

  /** One debit and one credit of its own amount and currency when COMPLETED, otherwise neither. */
  ghost predicate TransferAccounted(db: Db, row: Transfer) {
    var outs, ins := CountOf(db.ledger, TransferOut, OutKey(row.key)), CountOf(db.ledger, TransferIn, InKey(row.key));
    if row.status == Completed then
      outs == 1 && ins == 1 && HasDebit(db.ledger, row, db.wallets) && HasCredit(db.ledger, row, db.wallets)
    else
      outs == 0 && ins == 0
  }

  lemma TransferStatus(db: Db, t: Id)
    requires StoreInv(db) && t in db.transfers
    ensures TransferAccounted(db, db.transfers[t])
  {
    var row := db.transfers[t];
    hide RowsOk, EntriesOk, BalancesMatch, DepositsPosted, TransferEventsMatch, WalletsUnique, TransactionsUnique;
    CountAtMostOne(db.ledger, TransferOut, OutKey(row.key));
    CountAtMostOne(db.ledger, TransferIn, InKey(row.key));
    hide LedgerUnique;
    if row.status != Completed {
      forall i | 0 <= i < |db.ledger| && db.ledger[i].kind == TransferOut
        ensures db.ledger[i].key != OutKey(row.key)
      {
        if db.ledger[i].key == OutKey(row.key) {
          DebitEntryIsOwn(db, t, i);
        }
      }
      forall i | 0 <= i < |db.ledger| && db.ledger[i].kind == TransferIn
        ensures db.ledger[i].key != InKey(row.key)
      {
        if db.ledger[i].key == InKey(row.key) {
          CreditEntryIsOwn(db, t, i);
        }
      }
    }
  }

  /** Transfer idempotency: under any interleaving at most one transfer row exists per key, and
      it is COMPLETED exactly when it has one debit of the sender's wallet and one credit of the
      receiver's, each of its amount and currency; otherwise it has neither. */
  lemma TransferOnce(run: seq<Action>, t: Id, u: Id)
    ensures After(run).Some? && t in After(run).value.db.transfers ==>
      var db := After(run).value.db;
      && TransferAccounted(db, db.transfers[t])
      && (u in db.transfers && db.transfers[u].key == db.transfers[t].key ==> u == t)
  {
    hide TransferAccounted, After;
    if After(run).Some? && t in After(run).value.db.transfers {
      RunKeeps(run);
      TransferStatus(After(run).value.db, t);
      hide AllOk, LocksExact, OneRunner, Serial, RowsOk, EntriesOk, BalancesMatch, DepositsPosted, TransfersPosted,
        LedgerExplained, TransferEventsMatch, WalletsUnique, TransactionsUnique, LedgerUnique;
    }
  }

  // ---- Money ----

  /** Conservation per currency, whatever the amounts: the balances add up to the deposits plus the
      drift, so exactly to the deposits if and only if there is none, which the bound ensures. */
  lemma MoneyConserved(run: seq<Action>, currency: string)
    ensures After(run).Some? ==>
      var db := After(run).value.db;
      var held, deposited := Holdings(db.wallets, currency), DepositTotal(db.ledger, currency);
      && held == deposited + Drift(db.ledger, currency)
      && (held == deposited <==> Drift(db.ledger, currency) == 0)
      && (Within(db) ==> held == deposited)
  {
    hide After, Within, Chain, Conserved, Drift, Holdings, DepositTotal;
    RunKeepsBalanced(run);
    RunKeepsMoney(run);
    if After(run).Some? && Within(After(run).value.db) {
      ChainHasNoDrift(After(run).value.db.ledger, currency, "");
    }
  }

  /** Audit trail of a wallet, whatever the amounts: its balance is the last `balance_after`, never
      negative, and deposits plus transfers in minus transfers out plus the wallet's drift; within
      the bound there is no drift. */
  lemma Audited(run: seq<Action>, w: Id)
    ensures After(run).Some? && w in After(run).value.db.wallets ==>
      var db := After(run).value.db;
      && db.wallets[w].balance == LastBalance(db.ledger, w) >= 0
      && db.wallets[w].balance == NetOf(db.ledger, w) + WalletDrift(db.ledger, w)
      && (Within(db) ==> db.wallets[w].balance == NetOf(db.ledger, w))
  {
    hide After, Within, Conserved, Chain, NetOf, WalletDrift;
    RunKeeps(run);
    RunKeepsMoney(run);
    hide AllOk, LocksExact, OneRunner, Serial, IndexesHold, EntriesOk, DepositsPosted, TransfersPosted,
      LedgerExplained, TransferEventsMatch;
    if After(run).Some? {
      BalanceIsNetPlusDrift(After(run).value.db.ledger, w);
      if Within(After(run).value.db) {
        ChainHasNoDrift(After(run).value.db.ledger, "", w);
      }
    }
  }

  /** `balance_after` is what the code computes, and the exact result exactly when that is a double. */
  ghost predicate EntryComputed(prior: int, e: LedgerEntry) {
    && e.balanceAfter == Computed(prior, e)
    && ((e.kind == Deposit ==> JsNumber.Representable(e.amount)) ==>
          (e.balanceAfter == prior + Signed(e) <==> JsNumber.Representable(prior + Signed(e))))
  }

  lemma EntryIsComputed(ledger: seq<LedgerEntry>, i: nat)
    requires ComputedChain(ledger) && i < |ledger|
    ensures EntryComputed(LastBalance(ledger[..i], ledger[i].walletId), ledger[i])
  {
    ComputedChainAt(ledger, i);
    ComputedChainPrefix(ledger, i);
    BalancesAreDoubles(ledger[..i], ledger[i].walletId);
    hide LastBalance, ComputedChain, JsNumber.Round, Computed, EntryComputed;
    ComputedFrom(LastBalance(ledger[..i], ledger[i].walletId), ledger[i]);
  }

  lemma ComputedFrom(prior: int, e: LedgerEntry)
    requires JsNumber.Representable(prior) && e.balanceAfter == Computed(prior, e)
    ensures EntryComputed(prior, e)
  {
    hide JsNumber.Round;
  }

  /** Audit trail of an entry: `balance_after` is what the code computes from the wallet's previous
      one, starting from 0, and is never negative; within the bound it is the exact sum or
      difference, and beyond it that is so exactly when the result is a double (for a deposit
      whose amount is one). */
  lemma AuditedEntry(run: seq<Action>, i: nat)
    ensures After(run).Some? && i < |After(run).value.db.ledger| ==>
      var db := After(run).value.db;
      var e := db.ledger[i];
      && e.balanceAfter >= 0 && e.amount >= 1
      && EntryComputed(LastBalance(db.ledger[..i], e.walletId), e)
      && (Within(db) ==> e.balanceAfter == LastBalance(db.ledger[..i], e.walletId) + Signed(e))
  {
    hide After, Within, Conserved, Chain, LastBalance;
    RunKeeps(run);
    RunKeepsMoney(run);
    RunKeepsNumbers(run);
    hide AllOk, LocksExact, OneRunner, Serial, IndexesHold, RowsOk, BalancesMatch, DepositsPosted, TransfersPosted,
      LedgerExplained, TransferEventsMatch, BalancesRepresentable, EntryComputed, ComputedChain;
    if After(run).Some? && i < |After(run).value.db.ledger| {
      assert EntryOk(After(run).value.db.ledger[i], After(run).value.db.wallets);
      EntryIsComputed(After(run).value.db.ledger, i);
      if Within(After(run).value.db) {
        ChainAt(After(run).value.db.ledger, i);
      }
    }
  }

  ghost predicate TransferSafe(db: Db, x: Running) {
    && x.fromId in db.wallets && x.toId in db.wallets && x.fromId != x.toId
    && var b, r, a := db.wallets[x.fromId].balance, db.wallets[x.toId].balance, x.row.amount;
       && JsNumber.Number(b) == b && JsNumber.Number(r) == r && JsNumber.Sub(b, a) == b - a
       && -JsNumber.TWO53 <= b - a < JsNumber.TWO53
       && (a <= b ==> JsNumber.Add(r, a) == r + a <= JsNumber.TWO53)
  }

  /** Safe arithmetic of transfers: within the bound, a transfer about to commit computes both
      new balances exactly, and the receiver's cannot exceed 2^53. */
  lemma TransferArithmeticSafe(run: seq<Action>, p: nat)
    ensures After(run).Some? && Within(After(run).value.db) && p in After(run).value.procs ==>
      var s := After(run).value;
      s.procs[p].TCommit? ==> TransferSafe(s.db, s.procs[p].x)
  {
    hide After, Within;
    RunKeeps(run);
    RunKeepsMoney(run);
    hide LocksExact, OneRunner, Serial, IndexesHold, RowsOk, EntriesOk, BalancesMatch, DepositsPosted,
      TransfersPosted, LedgerExplained, TransferEventsMatch, Conserved, Chain;
    if After(run).Some? && Within(After(run).value.db) && p in After(run).value.procs {
      var s := After(run).value;
      assert ProcOk(s.db, s.procs[p]);
      if s.procs[p].TCommit? {
        var x := s.procs[p].x;
        TransferExact(s.db, x.id, x.row, x.fromId, x.toId);
      }
    }
  }

  /** No overdraft, whatever the amounts: the check of a transfer about to commit refuses it
      exactly when the sender's committed balance is short. */
  lemma OverdraftRefusedIff(run: seq<Action>, p: nat)
    ensures After(run).Some? && p in After(run).value.procs ==>
      var s := After(run).value;
      match s.procs[p]
      case TCommit(x, firstRead, secondRead) =>
        && x.fromId in s.db.wallets
        && var balance := s.db.wallets[x.fromId].balance;
           && balance == (if x.First() == x.fromId then firstRead else secondRead)
           && (JsNumber.Sub(JsNumber.Number(balance), x.row.amount) < 0 <==> balance < x.row.amount)
      case _ => true
  {
    hide After, JsNumber.Sub, JsNumber.Number, ComputedChain;
    RunKeeps(run);
    RunKeepsNumbers(run);
    hide StoreInv, LocksExact, OneRunner, Serial;
    if After(run).Some? && p in After(run).value.procs {
      var s := After(run).value;
      assert ProcOk(s.db, s.procs[p]);
      if s.procs[p].TCommit? {
        var x := s.procs[p].x;
        LockOrderSorted(x.fromId, x.toId);
        JsNumber.OverdraftExact(s.db.wallets[x.fromId].balance, x.row.amount);
      }
    }
  }

  predicate SettlementSafe(before: Db, after: Db, w: Id, amount: int) {
    && JsNumber.Number(amount) == amount
    && w in before.wallets && JsNumber.Number(before.wallets[w].balance) == before.wallets[w].balance
    && w in after.wallets && after.wallets[w].balance == before.wallets[w].balance + amount <= JsNumber.TWO53
  }

  lemma SettlementStepSafe(s: State, p: nat, t: State)
    requires Inv(s) && MoneyInv(s.db) && p in s.procs && s.procs[p].SCommit? && s.procs[p].walletId in s.db.wallets
    requires var c := s.procs[p]; t == CommitDeposit(s, p, c.txId, c.tx, c.walletId, c.balanceRead)
    requires t.db != s.db && Within(t.db)
    ensures SettlementSafe(s.db, t.db, s.procs[p].walletId, s.procs[p].tx.amount)
  {
    hide LocksExact, OneRunner, Serial, IndexesHold, RowsOk, EntriesOk, BalancesMatch, DepositsPosted,
      TransfersPosted, LedgerExplained, TransferEventsMatch, Conserved, Chain, Within, Apply, CommitDeposit;
    var SCommit(txId, tx, w, balanceRead) := s.procs[p];
    assert ProcOk(s.db, SCommit(txId, tx, w, balanceRead));
    hide AllOk;
    CommitDepositIs(s, p, txId, tx, w, balanceRead);
    var op := OpSettle(w, txId, tx);
    assert Apply(s.db, op) == Ok(t.db);
    hide Finish;
    SettlementExact(s.db, w, txId, tx, t.db);
  }

  /** Safe arithmetic of settlements: when the bound still holds after the commit, the new
      balance is the exact sum. */
  lemma SettlementArithmeticSafe(run: seq<Action>, p: nat)
    ensures After(run).Some? && p in After(run).value.procs ==>
      var s := After(run).value;
      s.procs[p].SCommit? && s.procs[p].walletId in s.db.wallets ==>
        var SCommit(txId, tx, w, balanceRead) := s.procs[p];
        var t := CommitDeposit(s, p, txId, tx, w, balanceRead);
        Within(s.db) && Within(t.db) && t.db != s.db ==> SettlementSafe(s.db, t.db, w, tx.amount)
  {
    hide After, Within, CommitDeposit, SettlementSafe, Inv, MoneyInv;
    RunKeeps(run);
    RunKeepsMoney(run);
    if After(run).Some? && p in After(run).value.procs {
      var s := After(run).value;
      if s.procs[p].SCommit? && s.procs[p].walletId in s.db.wallets && Within(s.db) {
        var SCommit(txId, tx, w, balanceRead) := s.procs[p];
        var t := CommitDeposit(s, p, txId, tx, w, balanceRead);
        if Within(t.db) && t.db != s.db {
          SettlementStepSafe(s, p, t);
        }
      }
    }
  }

  /** When a settlement conserves, checked before its commit: if and only if the computed balance is
      the exact sum, that is, for an amount that is a double, if the exact sum is one. */
  lemma SettlementConservesIff(run: seq<Action>, p: nat)
    ensures After(run).Some? && p in After(run).value.procs ==>
      var s := After(run).value;
      s.procs[p].SCommit? && s.procs[p].walletId in s.db.wallets ==>
        var SCommit(txId, tx, w, balanceRead) := s.procs[p];
        var t := CommitDeposit(s, p, txId, tx, w, balanceRead);
        t.db != s.db ==> SettlementExactIff(s.db, t.db, w, tx.amount)
  {
    hide After, CommitDeposit, SettlementExactIff, Inv, NumbersInv;
    RunKeeps(run);
    RunKeepsNumbers(run);
    if After(run).Some? && p in After(run).value.procs {
      var s := After(run).value;
      if s.procs[p].SCommit? && s.procs[p].walletId in s.db.wallets {
        var SCommit(txId, tx, w, balanceRead) := s.procs[p];
        var t := CommitDeposit(s, p, txId, tx, w, balanceRead);
        if t.db != s.db {
          SettlementStepIff(s, p, t);
        }
      }
    }
  }

  lemma SettlementStepIff(s: State, p: nat, t: State)
    requires Inv(s) && NumbersInv(s.db) && p in s.procs && s.procs[p].SCommit? && s.procs[p].walletId in s.db.wallets
    requires var c := s.procs[p]; t == CommitDeposit(s, p, c.txId, c.tx, c.walletId, c.balanceRead)
    requires t.db != s.db
    ensures SettlementExactIff(s.db, t.db, s.procs[p].walletId, s.procs[p].tx.amount)
  {
    hide LocksExact, OneRunner, Serial, IndexesHold, RowsOk, EntriesOk, BalancesMatch, DepositsPosted,
      TransfersPosted, LedgerExplained, TransferEventsMatch, ComputedChain, Apply, CommitDeposit, SettlementExactIff;
    var SCommit(txId, tx, w, balanceRead) := s.procs[p];
    assert ProcOk(s.db, SCommit(txId, tx, w, balanceRead));
    hide AllOk;
    CommitDepositIs(s, p, txId, tx, w, balanceRead);
    assert Apply(s.db, OpSettle(w, txId, tx)) == Ok(t.db);
    hide Finish;
    SettleConservesIff(s.db, w, txId, tx, t.db);
  }

  /** When a transfer conserves, checked before its commit: if and only if the two computed balances
      add up to the two old ones, as they do when both exact results are doubles. */
  lemma TransferConservesIff(run: seq<Action>, p: nat)
    ensures After(run).Some? && p in After(run).value.procs ==>
      var s := After(run).value;
      s.procs[p].TCommit? && WalletsKnown(s.db, s.procs[p].x) ==>
        var TCommit(x, firstRead, secondRead) := s.procs[p];
        var t := CommitRunning(s, p, x, firstRead, secondRead);
        t.db != s.db ==> TransferExactIff(s.db, t.db, x.fromId, x.toId, x.row.amount)
  {
    hide After, CommitRunning, TransferExactIff, Inv, NumbersInv;
    RunKeeps(run);
    RunKeepsNumbers(run);
    if After(run).Some? && p in After(run).value.procs {
      var s := After(run).value;
      if s.procs[p].TCommit? && WalletsKnown(s.db, s.procs[p].x) {
        var TCommit(x, firstRead, secondRead) := s.procs[p];
        var t := CommitRunning(s, p, x, firstRead, secondRead);
        if t.db != s.db {
          TransferStepIff(s, p, t);
        }
      }
    }
  }

  predicate WalletsKnown(db: Db, x: Running) {
    x.fromId in db.wallets && x.toId in db.wallets
  }

  lemma TransferStepIff(s: State, p: nat, t: State)
    requires Inv(s) && NumbersInv(s.db) && p in s.procs && s.procs[p].TCommit? && WalletsKnown(s.db, s.procs[p].x)
    requires var c := s.procs[p]; t == CommitRunning(s, p, c.x, c.firstRead, c.secondRead)
    requires t.db != s.db
    ensures TransferExactIff(s.db, t.db, s.procs[p].x.fromId, s.procs[p].x.toId, s.procs[p].x.row.amount)
  {
    hide LocksExact, OneRunner, Serial, IndexesHold, RowsOk, EntriesOk, BalancesMatch, DepositsPosted,
      TransfersPosted, LedgerExplained, TransferEventsMatch, ComputedChain, Apply, CommitRunning, TransferExactIff;
    var TCommit(x, firstRead, secondRead) := s.procs[p];
    assert ProcOk(s.db, TCommit(x, firstRead, secondRead));
    hide AllOk;
    CommitRunningIs(s, p, x, firstRead, secondRead);
    assert Apply(s.db, OpExecute(x.id, x.row, x.fromId, x.toId)) == Ok(t.db);
    hide Finish;
    ExecuteConservesIff(s.db, x.id, x.row, x.fromId, x.toId, t.db);
  }

  // ---- The transactional outbox ----

  lemma {:induction false} DistinctCounts(ids: seq<Id>, t: Id)
    requires Distinct(ids)
    ensures multiset(ids)[t] == if t in ids then 1 else 0
  {
    if ids == [] {
    } else {
      var prior, last := ids[..|ids| - 1], ids[|ids| - 1];
      assert ids == prior + [last];
      DistinctCounts(prior, t);
      assert forall i :: 0 <= i < |prior| ==> prior[i] == ids[i] && prior[i] != last;
    }
  }

  /** Transfer events are in bijection with completed transfers and describe them faithfully;
      aborted transactions leave no event. */
  lemma TransferEventsExact(run: seq<Action>, t: Id, i: nat)
    ensures After(run).Some? ==>
      var db := After(run).value.db;
      && multiset(TransferIds(db.outbox))[t] == (if IsCompleted(db.transfers, t) then 1 else 0)
      && (i < |db.outbox| && db.outbox[i].name == "TransferCompleted" ==>
            var id := db.outbox[i].aggregateId;
            id in db.transfers &&
            var row := db.transfers[id];
            db.outbox[i] == OutboxEvent("TransferCompleted", id,
                              TransferPayload(id, row.fromUserId, row.toUserId, row.amount, row.currency)))
  {
    hide After, TransferIds;
    RunKeeps(run);
    hide AllOk, LocksExact, OneRunner, Serial, IndexesHold, RowsOk, EntriesOk, BalancesMatch, DepositsPosted,
      TransfersPosted, LedgerExplained;
    if After(run).Some? {
      DistinctCounts(TransferIds(After(run).value.db.outbox), t);
    }
  }

  /** The deposit half of the transactional outbox, whatever the amounts: every deposit event is
      about a wallet and names its owner; the events carry owner, wallet, amount and currency of
      the Deposit entries, each amount as `Number(...)` reads it, in the same order and hence as
      multisets; they carry the amounts themselves exactly when every one of these is a double,
      which requests of at most 2^53 are. */
  lemma DepositEventsExact(run: seq<Action>)
    ensures After(run).Some? ==>
      var db := After(run).value.db;
      && (forall i :: 0 <= i < |db.outbox| && db.outbox[i].name == "DepositSucceeded" ==>
            var payload := db.outbox[i].payload;
            && payload.DepositPayload? && db.outbox[i].aggregateId == payload.walletId
            && Owns(db.wallets, payload.walletId, payload.userId, payload.currency))
      && DepositEvents(db.outbox) == DepositsAsRead(db.ledger, db.wallets)
      && multiset(DepositEvents(db.outbox)) == multiset(DepositsAsRead(db.ledger, db.wallets))
      && (DepositEvents(db.outbox) == DepositEntries(db.ledger, db.wallets) <==> DepositsRepresentable(db.ledger))
      && ((forall t :: t in db.transactions ==> db.transactions[t].amount <= JsNumber.TWO53) ==>
            DepositsRepresentable(db.ledger))
  {
    hide After, BalancesRepresentable, ComputedChain;
    RunKeepsNumbers(run);
    RunKeeps(run);
    hide AllOk, LocksExact, OneRunner, Serial, IndexesHold, RowsOk, EntriesOk, BalancesMatch, DepositsPosted,
      TransfersPosted, TransferEventsMatch;
    if After(run).Some? {
      var db := After(run).value.db;
      ReadsAreEntriesIff(db.ledger, db.wallets);
      if forall t :: t in db.transactions ==> db.transactions[t].amount <= JsNumber.TWO53 {
        SmallRequestsRepresentable(db);
      }
    }
  }

  lemma SmallRequestsRepresentable(db: Db)
    requires LedgerExplained(db) && RowsOk(db)
    requires forall t :: t in db.transactions ==> db.transactions[t].amount <= JsNumber.TWO53
    ensures DepositsRepresentable(db.ledger)
  {
    forall i | 0 <= i < |db.ledger| && db.ledger[i].kind == Deposit
      ensures JsNumber.Representable(db.ledger[i].amount)
    {
      assert Explained(db, db.ledger[i]);
      var t :| Settled(db, db.ledger[i], t);
      JsNumber.RoundExact(db.ledger[i].amount);
    }
  }
}
