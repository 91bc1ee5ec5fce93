/** Conservation of money, the audit chain and exact arithmetic, all of which rest on one
    bound: deposits per currency, and every requested amount, stay at most 2^53. */
module Money {
  import opened Rows
  import opened Operations
  import opened LedgerViews
  import opened StoreInvariant
  import opened StorePreservation
  import opened Totals
  import JsNumber

  function Balances(wallets: map<Id, Wallet>, currency: string): map<Id, int> {
    map w | w in wallets :: if wallets[w].currency == currency then wallets[w].balance else 0
  }

  /** All the money held in a currency. */
  ghost function Holdings(wallets: map<Id, Wallet>, currency: string): int {
    Sum(Balances(wallets, currency))
  }

  ghost predicate Within(db: Db) {
    && (forall c :: DepositTotal(db.ledger, c) <= JsNumber.TWO53)
    && (forall t :: t in db.transactions ==> db.transactions[t].amount <= JsNumber.TWO53)
    && (forall t :: t in db.transfers ==> db.transfers[t].amount <= JsNumber.TWO53)
  }

  ghost predicate Conserved(db: Db) {
    forall c :: Holdings(db.wallets, c) == DepositTotal(db.ledger, c)
  }

  ghost predicate MoneyInv(db: Db) {
    && Conserved(db)
    && Chain(db.ledger)
  }

  lemma EmptyMoney()
    ensures MoneyInv(EMPTY_DB) && Within(EMPTY_DB)
  {
    forall c
      ensures Holdings(EMPTY_DB.wallets, c) == 0
    {
      assert Balances(EMPTY_DB.wallets, c) == map[];
    }
  }

  // ---- One balance against the total ----

  lemma BalanceBelowHoldings(wallets: map<Id, Wallet>, w: Id)
    requires forall v :: v in wallets ==> wallets[v].balance >= 0
    requires w in wallets
    ensures wallets[w].balance <= Holdings(wallets, wallets[w].currency)
  {
    OneBelowSum(Balances(wallets, wallets[w].currency), w);
  }

  lemma TwoBalancesBelowHoldings(wallets: map<Id, Wallet>, v: Id, w: Id)
    requires forall x :: x in wallets ==> wallets[x].balance >= 0
    requires v in wallets && w in wallets && v != w && wallets[v].currency == wallets[w].currency
    ensures wallets[v].balance + wallets[w].balance <= Holdings(wallets, wallets[v].currency)
  {
    PairBelowSum(Balances(wallets, wallets[v].currency), v, w);
  }

  lemma HoldingsAfter(wallets: map<Id, Wallet>, w: Id, balance: int, c: string)
    requires w in wallets
    ensures Holdings(WithBalance(wallets, w, balance), c)
         == Holdings(wallets, c) + if wallets[w].currency == c then balance - wallets[w].balance else 0
  {
    var b := Balances(wallets, c);
    var v := if wallets[w].currency == c then balance else 0;
    assert Balances(WithBalance(wallets, w, balance), c) == b[w := v];
    SumPut(b, w, v);
  }

  // ---- Exact arithmetic ----

  /** Settlement: under the bound, what `Number(balance) + change` computes is the exact sum. */
  lemma SettlementExact(db: Db, walletId: Id, txId: Id, tx: Transaction, d: Db)
    requires RowsOk(db) && Conserved(db) && Settleable(db, walletId, txId, tx)
    requires Apply(db, OpSettle(walletId, txId, tx)) == Ok(d) && Within(d)
    ensures JsNumber.Number(tx.amount) == tx.amount
    ensures JsNumber.Number(db.wallets[walletId].balance) == db.wallets[walletId].balance
    ensures walletId in d.wallets
    ensures d.wallets[walletId].balance == db.wallets[walletId].balance + tx.amount <= JsNumber.TWO53
    ensures d.ledger == db.ledger + [SettlementEntry(db, walletId, tx, Deposit,
        db.wallets[walletId].balance + tx.amount)]
  {
    var e := d.ledger[|db.ledger|];
    var c := tx.currency;
    assert tx.amount >= 1 by { assert db.transactions[txId].amount >= 1; }
    assert d.transactions[txId].amount == tx.amount <= JsNumber.TWO53;
    DepositTotalSnoc(db.ledger, e, c);
    BalanceBelowHoldings(db.wallets, walletId);
    JsNumber.RoundExact(tx.amount);
    JsNumber.RoundExact(db.wallets[walletId].balance);
    JsNumber.RoundExact(db.wallets[walletId].balance + tx.amount);
  }

  /** Transfer: the sender's check bounds the receiver's sum by the money in the currency. */
  lemma TransferExact(db: Db, id: Id, row: Transfer, fromId: Id, toId: Id)
    requires RowsOk(db) && Conserved(db) && Within(db) && Executable(db, id, row, fromId, toId)
    ensures var b, r, a := db.wallets[fromId].balance, db.wallets[toId].balance, row.amount;
      && JsNumber.Number(b) == b && JsNumber.Number(r) == r
      && JsNumber.Sub(b, a) == b - a && -JsNumber.TWO53 <= b - a < JsNumber.TWO53
      && (a <= b ==> JsNumber.Add(r, a) == r + a <= JsNumber.TWO53)
  {
    var b, r, a := db.wallets[fromId].balance, db.wallets[toId].balance, row.amount;
    assert 1 <= a <= JsNumber.TWO53 by { assert db.transfers[id].amount == a; }
    BalanceBelowHoldings(db.wallets, fromId);
    BalanceBelowHoldings(db.wallets, toId);
    TwoBalancesBelowHoldings(db.wallets, fromId, toId);
    JsNumber.RoundExact(b);
    JsNumber.RoundExact(r);
    JsNumber.RoundExact(b - a);
    if a <= b {
      JsNumber.RoundExact(r + a);
    }
  }

  // ---- Preservation ----

  lemma SettleKeepsMoney(db: Db, walletId: Id, txId: Id, tx: Transaction, d: Db)
    requires StoreInv(db) && MoneyInv(db) && Settleable(db, walletId, txId, tx)
    requires Apply(db, OpSettle(walletId, txId, tx)) == Ok(d) && Within(d)
    ensures MoneyInv(d)
  {
    hide IndexesHold, EntriesOk, DepositsPosted, TransfersPosted, LedgerExplained, TransferEventsMatch;
    SettlementExact(db, walletId, txId, tx, d);
    var balance := db.wallets[walletId].balance + tx.amount;
    var e := SettlementEntry(db, walletId, tx, Deposit, balance);
    assert d.wallets == WithBalance(db.wallets, walletId, balance);
    forall c
      ensures Holdings(d.wallets, c) == DepositTotal(d.ledger, c)
    {
      HoldingsAfter(db.wallets, walletId, balance, c);
      DepositTotalSnoc(db.ledger, e, c);
    }
    ChainSnoc(db.ledger, e);
  }

  lemma ExecuteKeepsMoney(db: Db, id: Id, row: Transfer, fromId: Id, toId: Id, d: Db)
    requires StoreInv(db) && MoneyInv(db) && Executable(db, id, row, fromId, toId)
    requires Apply(db, OpExecute(id, row, fromId, toId)) == Ok(d) && Within(db)
    ensures MoneyInv(d)
  {
    hide IndexesHold, EntriesOk, DepositsPosted, TransfersPosted, LedgerExplained, TransferEventsMatch;
    TransferExact(db, id, row, fromId, toId);
    var a, b, r := row.amount, db.wallets[fromId].balance - row.amount, db.wallets[toId].balance + row.amount;
    var w1 := WithBalance(db.wallets, fromId, b);
    var debit, credit := DebitEntry(row, fromId, b), CreditEntry(row, toId, r);
    assert d.wallets == WithBalance(w1, toId, r);
    assert d.ledger == db.ledger + [debit] + [credit];
    forall c
      ensures Holdings(d.wallets, c) == DepositTotal(d.ledger, c)
    {
      HoldingsAfter(db.wallets, fromId, b, c);
      HoldingsAfter(w1, toId, r, c);
      DepositTotalSnoc(db.ledger, debit, c);
      DepositTotalSnoc(db.ledger + [debit], credit, c);
    }
    ChainSnoc(db.ledger, debit);
    LastBalanceSnoc(db.ledger, debit, toId);
    ChainSnoc(db.ledger + [debit], credit);
  }

  lemma InsertKeepsMoney(db: Db, id: Id, row: Wallet, d: Db)
    requires MoneyInv(db) && id !in db.wallets && row.balance == 0
    requires d == db.(wallets := db.wallets[id := row])
    ensures MoneyInv(d)
  {
    forall c
      ensures Holdings(d.wallets, c) == Holdings(db.wallets, c)
    {
      assert Balances(d.wallets, c) == Balances(db.wallets, c)[id := 0];
      SumPut(Balances(db.wallets, c), id, 0);
    }
  }

  lemma OpKeepsMoney(db: Db, op: Op, d: Db)
    requires StoreInv(db) && MoneyInv(db) && OpOk(db, op)
    requires Apply(db, op) == Ok(d) && Within(db) && Within(d)
    ensures MoneyInv(d)
  {
    hide StoreInv;
    match op
    case OpInsertWallet(id, userId, currency, tag) =>
      InsertKeepsMoney(db, id, Wallet(userId, currency, 0, tag), d);
    case OpSettle(walletId, txId, tx) => SettleKeepsMoney(db, walletId, txId, tx, d);
    case OpExecute(id, row, fromId, toId) => ExecuteKeepsMoney(db, id, row, fromId, toId, d);
    case _ =>
  }

  // ---- Why the service must refuse self transfers ----

  /** A committed transfer between wallets of its currency, of which at most 2^53 - 1 is held,
      conserves money exactly when the two wallets differ; from a wallet to itself it creates money. */
  lemma TransferConservesIffDistinct(db: Db, id: Id, row: Transfer, fromId: Id, toId: Id, event: OutboxEvent, d: Db)
    requires forall w :: w in db.wallets ==> db.wallets[w].balance >= 0
    requires fromId in db.wallets && toId in db.wallets && row.amount >= 1
    requires db.wallets[fromId].currency == row.currency && db.wallets[toId].currency == row.currency
    requires Holdings(db.wallets, row.currency) <= JsNumber.MAX_SAFE
    requires ExecuteTransfer(db, id, row, fromId, toId, event) == Ok(d)
    ensures Holdings(d.wallets, row.currency) == Holdings(db.wallets, row.currency) <==> fromId != toId
    ensures fromId == toId ==> Holdings(d.wallets, row.currency) > Holdings(db.wallets, row.currency)
  {
    var c, a := row.currency, row.amount;
    var b, r := db.wallets[fromId].balance, db.wallets[toId].balance;
    var senderNew, receiverNew := JsNumber.Sub(JsNumber.Number(b), a), JsNumber.Add(JsNumber.Number(r), a);
    var w1 := WithBalance(db.wallets, fromId, senderNew);
    assert d.wallets == WithBalance(w1, toId, receiverNew) && senderNew >= 0;
    hide ExecuteTransfer;
    BalanceBelowHoldings(db.wallets, fromId);
    BalanceBelowHoldings(db.wallets, toId);
    JsNumber.RoundExact(b);
    JsNumber.OverdraftExact(b, a);
    if fromId != toId {
      TwoBalancesBelowHoldings(db.wallets, fromId, toId);
    }
    NewBalances(b, r, a);
    HoldingsAfter(db.wallets, fromId, senderNew, c);
    HoldingsAfter(w1, toId, receiverNew, c);
    hide Holdings, JsNumber.Sub, JsNumber.Add, JsNumber.Number;
  }

  /** From a wallet with a balance of 1, a transfer of 1 to itself leaves 2. */
  lemma SelfTransferCreates() returns (db: Db, row: Transfer)
    ensures Holdings(db.wallets, "EUR") == 1
    ensures var r := ExecuteTransfer(db, "x", row, "w", "w", TransferEvent("x", row));
      r.Ok? && Holdings(r.value.wallets, "EUR") == 2
  {
    var wallet := Wallet("u", "EUR", 1, "tag");
    db := EMPTY_DB.(wallets := map["w" := wallet]);
    row := NewTransfer("u", "u", 1, "EUR", "k");
    JsNumber.RoundExact(0);
    JsNumber.RoundExact(1);
    JsNumber.RoundExact(2);
    hide JsNumber.Round;
    assert !LedgerKeyUsed(db.ledger, "k:out") && !LedgerKeyUsed(db.ledger, "k:in");
    var d := ExecuteTransfer(db, "x", row, "w", "w", TransferEvent("x", row)).value;
    assert d.wallets == map["w" := wallet.(balance := 2)];
    hide ExecuteTransfer;
    LoneWallet(wallet);
    LoneWallet(wallet.(balance := 2));
  }

  lemma LoneWallet(wallet: Wallet)
    requires wallet.currency == "EUR"
    ensures Holdings(map["w" := wallet], "EUR") == wallet.balance
  {
    var m := Balances(map["w" := wallet], "EUR");
    assert m == map["w" := wallet.balance];
    SumSplit(m, "w");
    assert m - {"w"} == map[];
  }

  lemma NewBalances(b: int, r: int, a: int)
    requires 0 <= b <= JsNumber.MAX_SAFE && 0 <= r <= JsNumber.MAX_SAFE && 1 <= a <= JsNumber.MAX_SAFE
    ensures JsNumber.Sub(JsNumber.Number(b), a) == b - a
    ensures JsNumber.Add(JsNumber.Number(r), a) > r
    ensures r + a <= JsNumber.TWO53 ==> JsNumber.Add(JsNumber.Number(r), a) == r + a
  {
    JsNumber.RoundExact(b);
    JsNumber.RoundExact(r);
    JsNumber.RoundExact(b - a);
    if r + a <= JsNumber.TWO53 {
      JsNumber.RoundExact(r + a);
    } else {
      JsNumber.RoundAtLeast(r + a);
    }
  }

  /** The bound is sharp: with one unit more than 2^53 deposited in a currency, a committed
      settlement can lose that unit (`Races.ReachableLoss` reaches such a state). */
  lemma BoundIsSharp(db: Db, txId: Id, tx: Transaction, walletId: Id)
    requires walletId in db.wallets && db.wallets[walletId].balance == JsNumber.TWO53
    requires tx.amount == 1 && !LedgerKeyUsed(db.ledger, tx.key)
    ensures var r := Apply(db, OpSettle(walletId, txId, tx));
            r.Ok? && r.value.wallets[walletId].balance == db.wallets[walletId].balance
            && r.value.ledger[|db.ledger|].amount == 1
            && (Chain(db.ledger) && LastBalance(db.ledger, walletId) == JsNumber.TWO53 ==> !Chain(r.value.ledger))
  {
    JsNumber.RoundExact(JsNumber.TWO53);
    JsNumber.RoundExact(1);
    JsNumber.RoundLosesOne();
    var d := Apply(db, OpSettle(walletId, txId, tx)).value;
    ChainSnoc(db.ledger, d.ledger[|db.ledger|]);
  }
}
