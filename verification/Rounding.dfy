/** What holds of the stored numbers whatever the amounts: balances are doubles, each
    `balance_after` is what the code computes from the previous one, and deposit events name the
    owner, wallet and currency of the Deposit entries and their amounts as `Number(...)` reads them. */
module Rounding {
  import opened Rows
  import opened Operations
  import opened LedgerViews
  import opened StoreInvariant
  import opened StorePreservation
  import opened Protocol
  import opened ProtocolInvariant
  import opened Simulation
  import JsNumber

  ghost predicate BalancesRepresentable(wallets: map<Id, Wallet>) {
    forall w :: w in wallets ==> JsNumber.Representable(wallets[w].balance)
  }

  ghost predicate NumbersInv(db: Db) {
    && BalancesRepresentable(db.wallets)
    && ComputedChain(db.ledger)
    && DepositEvents(db.outbox) == DepositsAsRead(db.ledger, db.wallets)
    && DepositEventsOwned(db.outbox, db.wallets)
  }

  /** Every DepositSucceeded event is about a wallet and names it and its owner. */
  ghost predicate DepositEventsOwned(outbox: seq<OutboxEvent>, wallets: map<Id, Wallet>) {
    forall i :: 0 <= i < |outbox| && outbox[i].name == "DepositSucceeded" ==>
      var payload := outbox[i].payload;
      && payload.DepositPayload? && outbox[i].aggregateId == payload.walletId
      && Owns(wallets, payload.walletId, payload.userId, payload.currency)
  }

  lemma OwnersGrow(ledger: seq<LedgerEntry>, outbox: seq<OutboxEvent>, a: map<Id, Wallet>, b: map<Id, Wallet>)
    requires EntriesOk(ledger, a) && WalletsGrow(a, b)
    ensures DepositsAsRead(ledger, a) == DepositsAsRead(ledger, b)
    ensures DepositEventsOwned(outbox, a) ==> DepositEventsOwned(outbox, b)
  {
    forall i | 0 <= i < |ledger|
      ensures OwnerOf(a, ledger[i].walletId) == OwnerOf(b, ledger[i].walletId)
    {
      assert EntryOk(ledger[i], a);
    }
    OwnersKept(ledger, a, b);
  }

  lemma OpKeepsOwners(db: Db, op: Op, d: Db)
    requires EntriesOk(db.ledger, db.wallets) && DepositEventsOwned(db.outbox, db.wallets) && Apply(db, op) == Ok(d)
    ensures DepositsAsRead(db.ledger, db.wallets) == DepositsAsRead(db.ledger, d.wallets)
    ensures DepositEventsOwned(db.outbox, d.wallets)
  {
    hide Apply;
    EveryOpGrows(db, op);
    OwnersGrow(db.ledger, db.outbox, db.wallets, d.wallets);
  }

  lemma OtherEventOwned(outbox: seq<OutboxEvent>, e: OutboxEvent, wallets: map<Id, Wallet>)
    requires DepositEventsOwned(outbox, wallets) && e.name != "DepositSucceeded"
    ensures DepositEventsOwned(outbox + [e], wallets)
  {
  }

  lemma OwnerEventOwned(outbox: seq<OutboxEvent>, e: OutboxEvent, wallets: map<Id, Wallet>)
    requires DepositEventsOwned(outbox, wallets) && e.payload.DepositPayload? && e.aggregateId == e.payload.walletId
    requires Owns(wallets, e.aggregateId, e.payload.userId, e.payload.currency)
    ensures DepositEventsOwned(outbox + [e], wallets)
  {
  }

  lemma WithBalanceRepresentable(wallets: map<Id, Wallet>, w: Id, n: int)
    requires BalancesRepresentable(wallets) && w in wallets
    ensures BalancesRepresentable(WithBalance(wallets, w, JsNumber.Round(n)))
  {
    JsNumber.RoundTwice(n);
    hide JsNumber.Round;
  }

  lemma SettleKeepsNumbers(db: Db, walletId: Id, txId: Id, tx: Transaction, d: Db)
    requires BalancesMatch(db.wallets, db.ledger) && EntriesOk(db.ledger, db.wallets)
    requires NumbersInv(db) && Settleable(db, walletId, txId, tx)
    requires Apply(db, OpSettle(walletId, txId, tx)) == Ok(d)
    ensures NumbersInv(d)
  {
    hide EntriesOk, DepositEventsOwned;
    OpKeepsOwners(db, OpSettle(walletId, txId, tx), d);
    var sum := JsNumber.Number(db.wallets[walletId].balance) + JsNumber.Number(tx.amount);
    var e := SettlementEntry(db, walletId, tx, Deposit, JsNumber.Round(sum));
    assert d.wallets == WithBalance(db.wallets, walletId, JsNumber.Round(sum));
    assert d.ledger == db.ledger + [e] && d.outbox == db.outbox + [DepositEvent(walletId, tx)];
    hide Apply;
    WithBalanceRepresentable(db.wallets, walletId, sum);
    ComputedChainSnoc(db.ledger, e);
    OwnerEventOwned(db.outbox, DepositEvent(walletId, tx), d.wallets);
    DepositsAsReadSnoc(db.ledger, e, d.wallets);
    DepositEventsSnoc(db.outbox, DepositEvent(walletId, tx));
    hide BalancesRepresentable, JsNumber.Round;
  }

  lemma ExecuteKeepsNumbers(db: Db, id: Id, row: Transfer, fromId: Id, toId: Id, d: Db)
    requires BalancesMatch(db.wallets, db.ledger) && EntriesOk(db.ledger, db.wallets)
    requires NumbersInv(db) && Executable(db, id, row, fromId, toId)
    requires Apply(db, OpExecute(id, row, fromId, toId)) == Ok(d)
    ensures NumbersInv(d)
  {
    hide EntriesOk, DepositEventsOwned;
    OpKeepsOwners(db, OpExecute(id, row, fromId, toId), d);
    var left := JsNumber.Number(db.wallets[fromId].balance) - row.amount;
    var sum := JsNumber.Number(db.wallets[toId].balance) + row.amount;
    var w1 := WithBalance(db.wallets, fromId, JsNumber.Round(left));
    var debit, credit := DebitEntry(row, fromId, JsNumber.Round(left)), CreditEntry(row, toId, JsNumber.Round(sum));
    assert d.wallets == WithBalance(w1, toId, JsNumber.Round(sum));
    assert d.ledger == db.ledger + [debit] + [credit] && d.outbox == db.outbox + [TransferEvent(id, row)];
    hide Apply;
    WithBalanceRepresentable(db.wallets, fromId, left);
    WithBalanceRepresentable(w1, toId, sum);
    ComputedChainSnoc(db.ledger, debit);
    LastBalanceSnoc(db.ledger, debit, toId);
    ComputedChainSnoc(db.ledger + [debit], credit);
    OtherEventOwned(db.outbox, TransferEvent(id, row), d.wallets);
    DepositsAsReadSnoc(db.ledger, debit, d.wallets);
    DepositsAsReadSnoc(db.ledger + [debit], credit, d.wallets);
    DepositEventsSnoc(db.outbox, TransferEvent(id, row));
    hide BalancesRepresentable, JsNumber.Round;
  }

  lemma OpKeepsNumbers(db: Db, op: Op, d: Db)
    requires BalancesMatch(db.wallets, db.ledger) && EntriesOk(db.ledger, db.wallets)
    requires NumbersInv(db) && OpOk(db, op) && Apply(db, op) == Ok(d)
    ensures NumbersInv(d)
  {
    match op
    case OpSettle(walletId, txId, tx) =>
      hide NumbersInv, Apply;
      SettleKeepsNumbers(db, walletId, txId, tx, d);
    case OpExecute(id, row, fromId, toId) =>
      hide NumbersInv, Apply;
      ExecuteKeepsNumbers(db, id, row, fromId, toId, d);
    case _ =>
      hide DepositEventsOwned, EntriesOk, BalancesMatch, ComputedChain, DepositsAsRead, DepositEvents;
      OpKeepsOwners(db, op, d);
  }

  lemma {:induction false} RunKeepsNumbers(run: seq<Action>)
    ensures After(run).Some? ==> NumbersInv(After(run).value.db)
  {
    hide Step, Enabled, NumbersInv;
    if run == [] {
      EmptyNumbers();
    } else if After(run).Some? {
      var before := run[..|run| - 1];
      var s, t := After(before).value, After(run).value;
      RunKeeps(before);
      RunKeepsNumbers(before);
      StepSimulated(s, run[|run| - 1]);
      hide AllOk, LocksExact, OneRunner, Serial;
      if !Idle(s, t) {
        var op :| Performs(s, op, t);
        hide OpOk, Apply;
        OpKeepsNumbers(s.db, op, t.db);
      }
    }
  }

  lemma EmptyNumbers()
    ensures NumbersInv(EMPTY_DB)
  {
  }
}
