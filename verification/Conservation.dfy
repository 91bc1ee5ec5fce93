/** Conservation without any bound: what is held of a currency is what was deposited plus what
    rounding has added, and which commits add nothing. */
module Conservation {
  import opened Rows
  import opened Operations
  import opened LedgerViews
  import opened StoreInvariant
  import opened StorePreservation
  import opened Protocol
  import opened ProtocolInvariant
  import opened Simulation
  import opened Money
  import opened Rounding
  import opened Totals
  import JsNumber

  ghost predicate Balanced(db: Db) {
    forall c :: Holdings(db.wallets, c) == DepositTotal(db.ledger, c) + Drift(db.ledger, c)
  }

  /** What is held beyond the deposits. */
  ghost function Surplus(db: Db, currency: string): int {
    Holdings(db.wallets, currency) - DepositTotal(db.ledger, currency)
  }

  // ---- One entry ----

  /** An entry moves a wallet's balance by its signed amount plus its miss. */
  lemma EntryMoves(wallets: map<Id, Wallet>, ledger: seq<LedgerEntry>, e: LedgerEntry, c: string)
    requires e.walletId in wallets && wallets[e.walletId].balance == LastBalance(ledger, e.walletId)
    requires wallets[e.walletId].currency == e.currency
    ensures var after, entries := WithBalance(wallets, e.walletId, e.balanceAfter), ledger + [e];
      var moved := if e.currency == c then Signed(e) + Miss(ledger, e) else 0;
      && Holdings(after, c) == Holdings(wallets, c) + moved
      && Drift(entries, c) == Drift(ledger, c) + (if e.currency == c then Miss(ledger, e) else 0)
      && DepositTotal(entries, c) == DepositTotal(ledger, c)
           + if e.kind == Deposit && e.currency == c then e.amount else 0
  {
    HoldingsAfter(wallets, e.walletId, e.balanceAfter, c);
    DriftSnoc(ledger, e, c);
    DepositTotalSnoc(ledger, e, c);
    hide Holdings, Drift, DepositTotal, LastBalance;
  }

  // ---- Settlement ----

  lemma SettleShape(db: Db, walletId: Id, txId: Id, tx: Transaction, d: Db)
    requires Settleable(db, walletId, txId, tx) && Apply(db, OpSettle(walletId, txId, tx)) == Ok(d)
    ensures var b := JsNumber.Add(JsNumber.Number(db.wallets[walletId].balance), JsNumber.Number(tx.amount));
      var e := SettlementEntry(db, walletId, tx, Deposit, b);
      && d.wallets == WithBalance(db.wallets, walletId, b) && d.ledger == db.ledger + [e]
      && e.currency == tx.currency == db.wallets[walletId].currency
  {
  }

  lemma SettleMoves(db: Db, walletId: Id, txId: Id, tx: Transaction, d: Db, c: string)
    requires BalancesMatch(db.wallets, db.ledger) && Settleable(db, walletId, txId, tx)
    requires Apply(db, OpSettle(walletId, txId, tx)) == Ok(d)
    ensures var b := db.wallets[walletId].balance;
      var miss := JsNumber.Add(JsNumber.Number(b), JsNumber.Number(tx.amount)) - b - tx.amount;
      && Surplus(d, c) == Surplus(db, c) + (if c == tx.currency then miss else 0)
      && Drift(d.ledger, c) == Drift(db.ledger, c) + (if c == tx.currency then miss else 0)
  {
    SettleShape(db, walletId, txId, tx, d);
    hide Apply, JsNumber.Add, JsNumber.Number, Holdings, Drift, DepositTotal;
    EntryMoves(db.wallets, db.ledger, d.ledger[|db.ledger|], c);
  }

  // ---- Transfer ----

  lemma ExecuteResults(db: Db, id: Id, row: Transfer, fromId: Id, toId: Id, d: Db)
    requires Executable(db, id, row, fromId, toId) && Apply(db, OpExecute(id, row, fromId, toId)) == Ok(d)
    ensures var b := JsNumber.Sub(JsNumber.Number(db.wallets[fromId].balance), row.amount);
      var r := JsNumber.Add(JsNumber.Number(db.wallets[toId].balance), row.amount);
      && d.wallets == WithBalance(WithBalance(db.wallets, fromId, b), toId, r)
      && d.ledger == db.ledger + [DebitEntry(row, fromId, b)] + [CreditEntry(row, toId, r)]
      && db.wallets[fromId].currency == db.wallets[toId].currency == row.currency && fromId != toId
  {
  }

  lemma ExecuteMoves(db: Db, id: Id, row: Transfer, fromId: Id, toId: Id, d: Db, c: string)
    requires BalancesMatch(db.wallets, db.ledger) && Executable(db, id, row, fromId, toId)
    requires Apply(db, OpExecute(id, row, fromId, toId)) == Ok(d)
    ensures var b, r := db.wallets[fromId].balance, db.wallets[toId].balance;
      var miss := JsNumber.Sub(JsNumber.Number(b), row.amount) + JsNumber.Add(JsNumber.Number(r), row.amount) - b - r;
      && Surplus(d, c) == Surplus(db, c) + (if c == row.currency then miss else 0)
      && Drift(d.ledger, c) == Drift(db.ledger, c) + (if c == row.currency then miss else 0)
  {
    ExecuteResults(db, id, row, fromId, toId, d);
    hide Apply, Holdings, Drift, DepositTotal, LastBalance;
    var b := JsNumber.Sub(JsNumber.Number(db.wallets[fromId].balance), row.amount);
    var r := JsNumber.Add(JsNumber.Number(db.wallets[toId].balance), row.amount);
    hide JsNumber.Add, JsNumber.Sub, JsNumber.Number;
    var debit, credit := DebitEntry(row, fromId, b), CreditEntry(row, toId, r);
    LastBalanceSnoc(db.ledger, debit, toId);
    EntryMoves(db.wallets, db.ledger, debit, c);
    EntryMoves(WithBalance(db.wallets, fromId, b), db.ledger + [debit], credit, c);
  }

  // ---- Runs ----

  lemma OpKeepsBalanced(db: Db, op: Op, d: Db)
    requires BalancesMatch(db.wallets, db.ledger) && Balanced(db) && OpOk(db, op) && Apply(db, op) == Ok(d)
    ensures Balanced(d)
  {
    hide Apply, Holdings, Drift, DepositTotal, BalancesMatch;
    match op
    case OpSettle(walletId, txId, tx) =>
      forall c
        ensures Surplus(d, c) == Drift(d.ledger, c)
      {
        SettleMoves(db, walletId, txId, tx, d, c);
        assert Surplus(db, c) == Drift(db.ledger, c);
      }
    case OpExecute(id, row, fromId, toId) =>
      forall c
        ensures Surplus(d, c) == Drift(d.ledger, c)
      {
        ExecuteMoves(db, id, row, fromId, toId, d, c);
        assert Surplus(db, c) == Drift(db.ledger, c);
      }
    case _ => SameHoldings(db, op, d);
  }

  /** Operations without ledger entries move no money; a new wallet is empty. */
  lemma SameHoldings(db: Db, op: Op, d: Db)
    requires !op.OpSettle? && !op.OpExecute? && Apply(db, op) == Ok(d)
    ensures d.ledger == db.ledger && forall c :: Holdings(d.wallets, c) == Holdings(db.wallets, c)
  {
    if op.OpInsertWallet? {
      forall c
        ensures Holdings(d.wallets, c) == Holdings(db.wallets, c)
      {
        assert Balances(d.wallets, c) == Balances(db.wallets, c)[op.id := 0];
        SumPut(Balances(db.wallets, c), op.id, 0);
      }
    }
  }

  lemma EmptyBalanced()
    ensures Balanced(EMPTY_DB)
  {
    EmptyMoney();
  }

  lemma {:induction false} RunKeepsBalanced(run: seq<Action>)
    ensures After(run).Some? ==> Balanced(After(run).value.db)
  {
    hide Step, Enabled, Balanced;
    if run == [] {
      EmptyBalanced();
    } else if After(run).Some? {
      var before := run[..|run| - 1];
      var s, t := After(before).value, After(run).value;
      RunKeeps(before);
      RunKeepsBalanced(before);
      StepSimulated(s, run[|run| - 1]);
      hide AllOk, LocksExact, OneRunner, Serial;
      if !Idle(s, t) {
        var op :| Performs(s, op, t);
        hide OpOk, Apply;
        OpKeepsBalanced(s.db, op, t.db);
      }
    }
  }

  // ---- Which commits conserve ----

  /** The two databases hold the same beyond their deposits, in every currency. */
  ghost predicate SameSurplus(a: Db, b: Db) {
    forall c :: Surplus(b, c) == Surplus(a, c)
  }

  ghost predicate MovesBy(a: Db, b: Db, currency: string, miss: int) {
    forall c :: Surplus(b, c) == Surplus(a, c) + if c == currency then miss else 0
  }

  ghost predicate SettlementExactIff(before: Db, after: Db, w: Id, amount: int) {
    && w in before.wallets
    && var b := before.wallets[w].balance;
       && (SameSurplus(before, after) <==> JsNumber.Add(JsNumber.Number(b), JsNumber.Number(amount)) == b + amount)
       && (JsNumber.Representable(amount) ==> (SameSurplus(before, after) <==> JsNumber.Representable(b + amount)))
  }

  lemma SettleConservesIff(db: Db, walletId: Id, txId: Id, tx: Transaction, d: Db)
    requires BalancesMatch(db.wallets, db.ledger) && BalancesRepresentable(db.wallets)
    requires Settleable(db, walletId, txId, tx) && Apply(db, OpSettle(walletId, txId, tx)) == Ok(d)
    ensures SettlementExactIff(db, d, walletId, tx.amount)
  {
    var b := db.wallets[walletId].balance;
    assert JsNumber.Representable(b);
    hide Apply, Surplus, BalancesMatch, BalancesRepresentable, JsNumber.Round;
    var miss := JsNumber.Add(JsNumber.Number(b), JsNumber.Number(tx.amount)) - b - tx.amount;
    forall c
      ensures Surplus(d, c) == Surplus(db, c) + if c == tx.currency then miss else 0
    {
      SettleMoves(db, walletId, txId, tx, d, c);
    }
    SurplusMoved(db, d, tx.currency, miss);
    hide SameSurplus;
  }

  ghost predicate TransferExactIff(before: Db, after: Db, fromId: Id, toId: Id, amount: int) {
    && fromId in before.wallets && toId in before.wallets
    && var b, r := before.wallets[fromId].balance, before.wallets[toId].balance;
       && (SameSurplus(before, after) <==> JsNumber.Round(b - amount) + JsNumber.Round(r + amount) == b + r)
       && (JsNumber.Representable(b - amount) && JsNumber.Representable(r + amount) ==> SameSurplus(before, after))
  }

  lemma ExecuteConservesIff(db: Db, id: Id, row: Transfer, fromId: Id, toId: Id, d: Db)
    requires BalancesMatch(db.wallets, db.ledger) && BalancesRepresentable(db.wallets)
    requires Executable(db, id, row, fromId, toId) && Apply(db, OpExecute(id, row, fromId, toId)) == Ok(d)
    ensures TransferExactIff(db, d, fromId, toId, row.amount)
  {
    hide Apply, Surplus, BalancesMatch, BalancesRepresentable, SameSurplus, MovesBy, JsNumber.Round;
    var b, r := db.wallets[fromId].balance, db.wallets[toId].balance;
    var miss := JsNumber.Round(b - row.amount) + JsNumber.Round(r + row.amount) - b - r;
    ExecuteMovesBy(db, id, row, fromId, toId, d, miss);
    SurplusMoved(db, d, row.currency, miss);
  }

  lemma ExecuteMovesBy(db: Db, id: Id, row: Transfer, fromId: Id, toId: Id, d: Db, miss: int)
    requires BalancesMatch(db.wallets, db.ledger) && BalancesRepresentable(db.wallets)
    requires Executable(db, id, row, fromId, toId) && Apply(db, OpExecute(id, row, fromId, toId)) == Ok(d)
    requires var b, r := db.wallets[fromId].balance, db.wallets[toId].balance;
      miss == JsNumber.Round(b - row.amount) + JsNumber.Round(r + row.amount) - b - r
    ensures MovesBy(db, d, row.currency, miss)
  {
    hide Apply, Surplus, BalancesMatch, BalancesRepresentable, JsNumber.Round, Executable;
    forall c
      ensures Surplus(d, c) == Surplus(db, c) + if c == row.currency then miss else 0
    {
      DoublesMove(db, id, row, fromId, toId, d, c);
    }
  }

  lemma DoublesMove(db: Db, id: Id, row: Transfer, fromId: Id, toId: Id, d: Db, c: string)
    requires BalancesMatch(db.wallets, db.ledger) && BalancesRepresentable(db.wallets)
    requires Executable(db, id, row, fromId, toId) && Apply(db, OpExecute(id, row, fromId, toId)) == Ok(d)
    ensures var b, r := db.wallets[fromId].balance, db.wallets[toId].balance;
      var miss := JsNumber.Round(b - row.amount) + JsNumber.Round(r + row.amount) - b - r;
      Surplus(d, c) == Surplus(db, c) + if c == row.currency then miss else 0
  {
    hide Apply, Surplus, BalancesMatch, Drift;
    ExecuteMoves(db, id, row, fromId, toId, d, c);
    var b, r := db.wallets[fromId].balance, db.wallets[toId].balance;
    assert JsNumber.Representable(b) && JsNumber.Representable(r);
    hide BalancesRepresentable, Executable;
    DoublesComputed(b, row.amount);
    DoublesComputed(r, row.amount);
    hide JsNumber.Add, JsNumber.Sub, JsNumber.Number, JsNumber.Round;
  }

  lemma DoublesComputed(b: int, amount: int)
    requires JsNumber.Representable(b)
    ensures JsNumber.Sub(JsNumber.Number(b), amount) == JsNumber.Round(b - amount)
    ensures JsNumber.Add(JsNumber.Number(b), amount) == JsNumber.Round(b + amount)
  {
    hide JsNumber.Round;
  }

  lemma SurplusMoved(a: Db, b: Db, currency: string, miss: int)
    requires MovesBy(a, b, currency, miss)
    ensures SameSurplus(a, b) <==> miss == 0
  {
    hide Surplus;
    if SameSurplus(a, b) {
      assert Surplus(b, currency) == Surplus(a, currency);
    }
  }
}
