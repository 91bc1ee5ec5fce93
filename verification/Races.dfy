/** Reachable states that show what the platform does not promise: a settled deposit that ends
    as FAILED, and a deposit of which nothing arrives once the bound on deposits is exceeded. */
module Races {
  import opened Rows
  import opened Operations
  import opened LedgerViews
  import opened StoreInvariant
  import opened Protocol
  import opened Requests
  import opened BalanceCache
  import opened Guarantees
  import opened Money
  import opened SoloRuns
  import opened EverySoloRun
  import JsNumber

  ghost predicate Reachable(s: State) {
    exists run :: After(run) == Some(s)
  }

  lemma {:induction false} ContinueConcat(s: State, a: seq<Action>, b: seq<Action>)
    requires Continue(s, a).Some?
    ensures Continue(s, a + b) == Continue(Continue(s, a).value, b)
  {
    hide Enabled, Step;
    if b == [] {
      assert a + b == a;
    } else {
      ContinueConcat(s, a, b[..|b| - 1]);
      assert (a + b)[..|a| + |b| - 1] == a + b[..|b| - 1];
    }
  }

  lemma ReachAction(s: State, a: Action)
    requires Reachable(s) && Enabled(s, a)
    ensures Reachable(Step(s, a))
  {
    hide Enabled, Step;
    var run :| After(run) == Some(s);
    assert (run + [a])[..|run|] == run;
    assert After(run + [a]) == Some(Step(s, a));
  }

  lemma ReachAlone(s: State, p: nat, t: State)
    requires Reachable(s) && Alone(s, p, t)
    ensures Reachable(t)
  {
    var run :| After(run) == Some(s);
    var more :| OnlyOf(more, p) && Continue(s, more) == Some(t);
    ContinueConcat(INITIAL, run, more);
    assert After(run + more) == Some(t);
  }

  /** A whole request, from its arrival to its end. */
  lemma RunRequest(s: State, p: nat, r: Request) returns (t: State)
    requires Reachable(s) && s.locks == map[] && p !in s.procs
    requires ArrivesAs(r).Some? && Arrival(ArrivesAs(r).value) && !r.ReqBalance?
    ensures Reachable(t) && t.locks == map[] && t.procs == s.procs[p := Done] && t.db == Serve(s.db, r).0
  {
    var a := Arrive(p, ArrivesAs(r).value);
    ReachAction(s, a);
    var one := Step(s, a);
    hide ArrivesAs, Reachable, Alone;
    t := SoloRunServes(one, p, r);
    assert one.procs[p := Done] == s.procs[p := Done];
    hide Serve, Invalidated;
    ReachAlone(one, p, t);
  }

  lemma InitialReachable()
    ensures Reachable(INITIAL)
  {
    assert After([]) == Some(INITIAL);
  }

  // ---- One wallet and its deposits ----

  predicate OneWallet(db: Db, balance: int) {
    db.wallets == map["w" := Wallet("u", "EUR", balance, "tag")]
  }

  lemma OnlyWalletFound(db: Db, balance: int)
    requires OneWallet(db, balance)
    ensures FindWallet(db, "u", "EUR") == Some("w")
  {
    assert Owns(db.wallets, "w", "u", "EUR");
  }

  lemma Registered() returns (s: State)
    ensures Reachable(s) && s.locks == map[] && s.procs == map[0 := Done]
    ensures s.db == EMPTY_DB.(wallets := map["w" := Wallet("u", "EUR", 0, "tag")])
  {
    InitialReachable();
    s := RunRequest(INITIAL, 0, ReqRegister("u", "EUR", "w", "tag"));
  }

  function PendingDeposit(amount: int, key: string, providerRef: string): Transaction {
    Transaction("u", amount, "EUR", key, Pending, Some(providerRef), None)
  }

  lemma Deposited(s: State, p: nat, balance: int, id: Id, amount: int, key: string, providerRef: string)
          returns (t: State)
    requires Reachable(s) && s.locks == map[] && p !in s.procs && OneWallet(s.db, balance)
    requires amount >= 1 && id !in s.db.transactions && !TransactionKeyUsed(s.db, key) && providerRef != ""
    ensures Reachable(t) && t.locks == map[] && t.procs == s.procs[p := Done]
    ensures t.db == s.db.(transactions := s.db.transactions[id := PendingDeposit(amount, key, providerRef)])
  {
    hide Reachable, TransactionKeyUsed;
    var r := ReqDeposit(DepositRequest("u", amount, "EUR", key), id, Accepted(Some(providerRef), true, None));
    t := RunRequest(s, p, r);
    OnlyWalletFound(s.db, balance);
    hide FindWallet;
  }

  lemma Paid(s: State, p: nat, balance: int, id: Id, amount: int, key: string, providerRef: string) returns (t: State)
    requires Reachable(s) && s.locks == map[] && p !in s.procs && OneWallet(s.db, balance)
    requires id in s.db.transactions && s.db.transactions[id] == PendingDeposit(amount, key, providerRef)
    requires !LedgerKeyUsed(s.db.ledger, key) && balance >= 0 && amount >= 1
    ensures Reachable(t) && t.locks == map[] && t.procs == s.procs[p := Done]
    ensures var sum := JsNumber.Add(JsNumber.Number(balance), JsNumber.Number(amount));
      && OneWallet(t.db, sum)
      && t.db.transactions == s.db.transactions[id := PendingDeposit(amount, key, providerRef).(status := Completed)]
      && t.db.ledger == s.db.ledger + [LedgerEntry("w", Deposit, amount, "EUR", sum, key)]
  {
    hide Reachable;
    var r := ReqWebhook(Payment(providerRef), id);
    t := RunRequest(s, p, r);
    OnlyWalletFound(s.db, balance);
    JsNumber.RoundKeepsSign(balance);
    JsNumber.RoundKeepsSign(amount);
    JsNumber.RoundKeepsSign(JsNumber.Number(balance) + JsNumber.Number(amount));
    hide FindWallet, LedgerKeyUsed, JsNumber.Round;
    assert FindByRef(s.db, providerRef, id) == Some(id);
  }

  // ---- COMPLETED is not final ----

  /** An expiry reads PENDING, the payment is credited, then the expiry writes: the deposit was
      COMPLETED and becomes FAILED, and the credit stays. */
  lemma CompletedThenFailed() returns (run: seq<Action>, a: Action)
    ensures After(run).Some? && Enabled(After(run).value, a)
    ensures var s := After(run).value;
      && StatusIs(s.db, "t", Completed) && HasDeposit(s.db.ledger, s.db.transactions["t"], s.db.wallets)
      && StatusIs(Step(s, a).db, "t", Failed) && Step(s, a).db.ledger == s.db.ledger
      && HasDeposit(Step(s, a).db.ledger, Step(s, a).db.transactions["t"], Step(s, a).db.wallets)
  {
    hide After, Step, Enabled, Continue, JsNumber.Round, HasDeposit;
    var s := Registered();
    var one := Deposited(s, 1, 0, "t", 1, "k", "ref");
    var two := ExpiryRead(one);
    var three := Paid(two, 3, 0, "t", 1, "k", "ref");
    run :| After(run) == Some(three);
    a := Go(2, "", Threw);
    ExpiryWrites(three, three.db.wallets["w"].balance);
  }

  lemma ExpiryWrites(s: State, balance: int)
    requires OneWallet(s.db, balance) && 2 in s.procs && s.procs[2] == FWrite("t", EXPIRY_REASON)
    requires "t" in s.db.transactions && s.db.transactions["t"] == PendingDeposit(1, "k", "ref").(status := Completed)
    requires s.db.ledger == [LedgerEntry("w", Deposit, 1, "EUR", balance, "k")]
    ensures var a := Go(2, "", Threw);
      && Enabled(s, a) && Step(s, a).db.ledger == s.db.ledger && StatusIs(Step(s, a).db, "t", Failed)
      && HasDeposit(s.db.ledger, s.db.transactions["t"], s.db.wallets)
      && HasDeposit(Step(s, a).db.ledger, Step(s, a).db.transactions["t"], Step(s, a).db.wallets)
  {
    var t := Step(s, Go(2, "", Threw));
    assert t.db == FailTransaction(s.db, "t", EXPIRY_REASON);
    hide Next;
    assert IsDepositOf(s.db.ledger[0], s.db.transactions["t"], s.db.wallets);
    assert IsDepositOf(t.db.ledger[0], t.db.transactions["t"], t.db.wallets);
  }

  lemma ExpiryRead(s: State) returns (t: State)
    requires Reachable(s) && s.locks == map[] && 2 !in s.procs
    requires "t" in s.db.transactions && s.db.transactions["t"] == PendingDeposit(1, "k", "ref")
    ensures Reachable(t) && t == Moved(s, 2, FWrite("t", EXPIRY_REASON))
  {
    hide Reachable;
    var arrive, go := Arrive(2, FFind("ref", EXPIRY_REASON)), Go(2, "t", Threw);
    ReachAction(s, arrive);
    var one := Step(s, arrive);
    assert HasRef(one.db, "t", "ref");
    ReachAction(one, go);
    t := Step(one, go);
    assert one.procs[2 := FWrite("t", EXPIRY_REASON)] == s.procs[2 := FWrite("t", EXPIRY_REASON)];
  }

  // ---- The bound on deposits is sharp ----

  /** With every request at most 2^53 and 2^53 + 1 deposited in all, one unit is missing. */
  lemma ReachableLoss() returns (run: seq<Action>)
    ensures After(run).Some?
    ensures var db := After(run).value.db;
      && (forall t :: t in db.transactions ==> db.transactions[t].amount <= JsNumber.TWO53)
      && DepositTotal(db.ledger, "EUR") == JsNumber.TWO53 + 1
      && Holdings(db.wallets, "EUR") == JsNumber.TWO53
  {
    LossSums();
    hide After, Continue, DepositTotal, Holdings, JsNumber.Add, JsNumber.Number;
    var s := Registered();
    var big := JsNumber.TWO53;
    var one := Deposited(s, 1, 0, "t", big, "k", "ref");
    var two := Paid(one, 2, 0, "t", big, "k", "ref");
    var three := Deposited(two, 3, big, "t2", 1, "k2", "ref2");
    var four := Paid(three, 4, big, "t2", 1, "k2", "ref2");
    run :| After(run) == Some(four);
    assert four.db.ledger == [two.db.ledger[0], four.db.ledger[1]];
    TwoDepositsTotal(two.db.ledger[0], four.db.ledger[1]);
    OneWalletHoldings(four.db, big);
    hide DepositTotal, Holdings;
  }

  lemma LossSums()
    ensures JsNumber.Add(JsNumber.Number(0), JsNumber.Number(JsNumber.TWO53)) == JsNumber.TWO53
    ensures JsNumber.Add(JsNumber.Number(JsNumber.TWO53), JsNumber.Number(1)) == JsNumber.TWO53
  {
    JsNumber.RoundExact(0);
    JsNumber.RoundExact(1);
    JsNumber.RoundExact(JsNumber.TWO53);
    JsNumber.RoundLosesOne();
    hide JsNumber.Round;
  }

  lemma TwoDepositsTotal(first: LedgerEntry, second: LedgerEntry)
    requires first.kind == second.kind == Deposit && first.currency == second.currency == "EUR"
    ensures DepositTotal([first, second], "EUR") == first.amount + second.amount
  {
    assert [first, second] == [first] + [second] && [first] == [] + [first];
    DepositTotalSnoc([], first, "EUR");
    DepositTotalSnoc([first], second, "EUR");
  }

  lemma OneWalletHoldings(db: Db, balance: int)
    requires OneWallet(db, balance)
    ensures Holdings(db.wallets, "EUR") == balance
  {
    LoneWallet(db.wallets["w"]);
  }
}
