/** A request sent twice with the same idempotency key, one after the other: what the second one
    does, and whether its sender can tell the two answers apart. */
module Idempotency {
  import opened Rows
  import opened Operations
  import opened Protocol
  import opened Requests
  import opened StoreInvariant
  import opened BalanceCache
  import opened Races
  import JsNumber
  import LexOrder

  /** What the wallet controller answers: a duplicate looks like a deposit without checkout page. */
  function DepositReply(response: Response): Response {
    match response
    case Initiated(checkoutUrl) => if IsRef(checkoutUrl) then response else Initiated(None)
    case Ignored => Initiated(None)
    case _ => response
  }

  /** What the transfers controller answers: a duplicate looks like an accepted transfer. */
  function TransferReply(response: Response): Response {
    if response == Ignored then Succeeded else response
  }

  /** A repeated deposit never changes anything, unless the first one failed to insert its row and
      so left no trace. Its answer is the first one's exactly when that was neither a checkout
      page nor a refusal by or after the gateway. */
  lemma DepositRepeated(db: Db, dep: DepositRequest, id: Id, gateway: Gateway, id2: Id, gateway2: Gateway)
    ensures var (d, first) := StartDeposit(db, dep, id, gateway);
      var (d2, second) := StartDeposit(d, dep, id2, gateway2);
      if first.Thrown? then d == db
      else
        d2 == d
        && (DepositReply(second) == DepositReply(first)
            <==> !(first == BadRequest || (first.Initiated? && IsRef(first.checkoutUrl))))
  {
    var (d, first) := StartDeposit(db, dep, id, gateway);
    if first == BadRequest || first.Initiated? {
      assert id in d.transactions && d.transactions[id].key == dep.key;
    }
  }

  lemma SameRecipient(db: Db, d: Db, tag: string)
    requires WalletsUnique(db.wallets) && WalletsGrow(db.wallets, d.wallets) && d.wallets.Keys == db.wallets.Keys
    ensures FindByTag(d, tag) == FindByTag(db, tag)
  {
    var a, b := FindByTag(db, tag), FindByTag(d, tag);
    assert forall w :: w in d.wallets ==> w in db.wallets && WalletKept(db.wallets[w], d.wallets[w]);
  }

  /** The effect of a transfer request on wallets and keys. */
  lemma TransferLeaves(db: Db, req: TransferRequest, id: Id)
    ensures var (d, response) := InitiateTransfer(db, req, id);
      && WalletsGrow(db.wallets, d.wallets) && d.wallets.Keys == db.wallets.Keys
      && (d != db ==> TransferKeyUsed(d, req.key))
      && (response == Ignored ==> TransferKeyUsed(db, req.key))
      && (response.NotFound? || response.BadRequest? || response.Ignored? ==> d == db)
      && (response == Succeeded ==> d != db)
  {
    var (d, response) := InitiateTransfer(db, req, id);
    if d != db {
      var toId, fromId := FindByTag(db, req.toWalletTag).value, FindWallet(db, req.fromUserId, req.currency).value;
      var row := NewTransfer(req.fromUserId, db.wallets[toId].userId, req.amount, req.currency, req.key);
      CreatedAndExecuted(db, id, row, fromId, toId, d);
      assert d.transfers[id].key == req.key;
    }
    hide Apply, FindWallet, FindByTag;
  }

  lemma CreatedAndExecuted(db: Db, id: Id, row: Transfer, fromId: Id, toId: Id, d: Db)
    requires CreateTransfer(db, id, row).Ok?
    requires var one := CreateTransfer(db, id, row).value;
      d == one || Apply(one, OpExecute(id, row, fromId, toId)) == Ok(d)
    ensures WalletsGrow(db.wallets, d.wallets) && d.wallets.Keys == db.wallets.Keys
    ensures id in d.transfers && d.transfers[id].key == row.key && d != db
  {
    var one := CreateTransfer(db, id, row).value;
    if d != one {
      EveryOpGrows(one, OpExecute(id, row, fromId, toId));
      OpKeepsWalletKeys(one, OpExecute(id, row, fromId, toId), d);
    }
    assert id in one.transfers && id !in db.transfers;
    hide Apply;
  }

  /** A repeated transfer never moves money again, unless the first one failed to insert its row
      and so left no trace. Its answer is the first one's exactly when the first one did not fail
      after that insert: a transfer rejected for lack of balance is, when repeated, answered as
      accepted although nothing moves. */
  lemma TransferRepeated(db: Db, req: TransferRequest, id: Id, id2: Id)
    requires WalletsUnique(db.wallets)
    ensures var (d, first) := InitiateTransfer(db, req, id);
      var (d2, second) := InitiateTransfer(d, req, id2);
      if first.Thrown? && d == db then true
      else d2 == d && (TransferReply(second) == TransferReply(first) <==> !first.Thrown?)
  {
    var (d, first) := InitiateTransfer(db, req, id);
    TransferLeaves(db, req, id);
    SameRecipient(db, d, req.toWalletTag);
    hide WalletsUnique, TransferKeyUsed, FindWallet, FindByTag, Apply, CreateTransfer;
  }

  // ---- A repeated rejection is answered as accepted ----

  predicate EmptyPair(db: Db) {
    db == EMPTY_DB.(wallets := map["v" := Wallet("a", "EUR", 0, "from"), "w" := Wallet("b", "EUR", 0, "to")])
  }

  lemma TwoRegistered() returns (s: State)
    ensures Reachable(s) && EmptyPair(s.db)
  {
    hide Reachable, EnsureWallet;
    InitialReachable();
    WalletOpened(EMPTY_DB, "a", "v", "from");
    var one := RunRequest(INITIAL, 0, ReqRegister("a", "EUR", "v", "from"));
    WalletOpened(one.db, "b", "w", "to");
    s := RunRequest(one, 1, ReqRegister("b", "EUR", "w", "to"));
  }

  lemma WalletOpened(db: Db, userId: Id, id: Id, tag: string)
    requires id !in db.wallets
    requires forall w :: w in db.wallets ==> db.wallets[w].userId != userId && db.wallets[w].tag != tag
    ensures EnsureWallet(db, userId, "EUR", id, tag).0
         == db.(wallets := db.wallets[id := Wallet(userId, "EUR", 0, tag)])
  {
  }

  function PairRequest(): TransferRequest {
    TransferRequest("a", "to", 1, "EUR", "k")
  }

  lemma PairRejects(db: Db)
    requires EmptyPair(db)
    ensures var (d, first) := InitiateTransfer(db, PairRequest(), "x");
      first == Thrown(InsufficientBalance) && d != db && d.wallets == db.wallets && TransferKeyUsed(d, "k")
  {
    assert FindByTag(db, "to") == Some("w") by { assert "w" in db.wallets && db.wallets["w"].tag == "to"; }
    assert FindWallet(db, "a", "EUR") == Some("v") by { assert Owns(db.wallets, "v", "a", "EUR"); }
    hide FindWallet, FindByTag;
    var row := NewTransfer("a", "b", 1, "EUR", "k");
    var d := CreateTransfer(db, "x", row).value;
    EmptyWalletRejects(d, row);
    hide Apply;
    assert d.transfers["x"].key == "k";
  }

  lemma EmptyWalletRejects(db: Db, row: Transfer)
    requires "v" in db.wallets && "w" in db.wallets && db.wallets["v"].balance == 0 && row.amount == 1
    ensures Apply(db, OpExecute("x", row, "v", "w")) == Err(InsufficientBalance)
  {
    JsNumber.RoundExact(0);
    JsNumber.RoundExact(-1);
    assert LexOrder.Less("v", "w");
    hide JsNumber.Round;
  }

  /** Two wallets just registered: the first transfer is rejected, its repeat answered as accepted,
      and nothing moves. */
  lemma RejectedThenAccepted() returns (run: seq<Action>)
    ensures After(run).Some?
    ensures var db := After(run).value.db;
      var (d, first) := InitiateTransfer(db, PairRequest(), "x");
      var (d2, second) := InitiateTransfer(d, PairRequest(), "y");
      first == Thrown(InsufficientBalance) && TransferReply(second) == Succeeded && d2.wallets == db.wallets
  {
    hide InitiateTransfer, After, TransferKeyUsed, WalletsUnique;
    var s := TwoRegistered();
    run :| After(run) == Some(s);
    PairRejects(s.db);
    assert WalletsUnique(s.db.wallets) by { PairUnique(s.db); }
    TransferRepeated(s.db, PairRequest(), "x", "y");
    RepeatIgnored(InitiateTransfer(s.db, PairRequest(), "x").0, PairRequest(), "y");
  }

  lemma PairUnique(db: Db)
    requires EmptyPair(db)
    ensures WalletsUnique(db.wallets)
  {
  }

  /** A request whose key is taken and whose recipient is found is ignored. */
  lemma RepeatIgnored(db: Db, req: TransferRequest, id: Id)
    requires TransferKeyUsed(db, req.key)
    requires db.wallets == map["v" := Wallet("a", "EUR", 0, "from"), "w" := Wallet("b", "EUR", 0, "to")]
    requires req == PairRequest()
    ensures InitiateTransfer(db, req, id).1 == Ignored
  {
    assert FindByTag(db, "to") == Some("w") by { assert "w" in db.wallets && db.wallets["w"].tag == "to"; }
    hide TransferKeyUsed, Apply, FindWallet;
  }
}
