/** Stripe events handled one at a time: the first decisive event settles a deposit's fate. */
module Webhooks {
  import opened Rows
  import opened Operations
  import opened Protocol
  import opened StoreInvariant
  import opened StorePreservation
  import opened Requests
  import JsNumber

  /** Each event with the row the database would pick among several with the same reference. */
  type Delivery = (WebhookEvent, Id)

  ghost function HandleAll(db: Db, events: seq<Delivery>): Db
    decreases |events|
  {
    if events == [] then db
    else HandleAll(HandleWebhook(db, events[0].0, events[0].1).0, events[1..])
  }

  datatype Verdict = Undecided | Paid | Expired

  /** What an event says about the session `providerRef`. */
  function VerdictOf(event: WebhookEvent, providerRef: string): Verdict {
    if event.sessionId != providerRef then Undecided
    else if event.kind == SESSION_COMPLETED && event.paymentStatus == PAID then Paid
    else if event.kind == SESSION_EXPIRED then Expired
    else Undecided
  }

  /** The first event about the session that counts; a payment counts only if it can be credited. */
  function FirstVerdict(events: seq<Delivery>, providerRef: string, creditable: bool): Verdict {
    if events == [] then Undecided
    else
      var v := VerdictOf(events[0].0, providerRef);
      if v == Expired || (v == Paid && creditable) then v
      else FirstVerdict(events[1..], providerRef, creditable)
  }

  /** `t` is the only row with the reference, so a query for it can only return `t`. */
  ghost predicate SoleRef(db: Db, t: Id, providerRef: string) {
    HasRef(db, t, providerRef) && forall u :: HasRef(db, u, providerRef) ==> u == t
  }

  /** A deposit can be credited if its owner has the wallet and no ledger entry took its key. */
  ghost predicate Creditable(db: Db, t: Id) {
    && t in db.transactions
    && FindWallet(db, db.transactions[t].userId, db.transactions[t].currency).Some?
    && !LedgerKeyUsed(db.ledger, db.transactions[t].key)
  }

  predicate AwaitsWebhook(db: Db, t: Id) {
    t in db.transactions && db.transactions[t].status == Pending
  }

  lemma CreditSucceeds(db: Db, t: Id)
    requires StoreInv(db) && AwaitsWebhook(db, t) && db.transactions[t].providerRef.Some?
    ensures var tx := db.transactions[t];
      var w := FindWallet(db, tx.userId, tx.currency);
      w.Some? ==> Settleable(db, w.value, t, tx)
                  && (Apply(db, OpSettle(w.value, t, tx)).Ok? <==> Creditable(db, t))
  {
    hide IndexesHold, EntriesOk, BalancesMatch, DepositsPosted, TransfersPosted, LedgerExplained, TransferEventsMatch;
    var tx := db.transactions[t];
    var w := FindWallet(db, tx.userId, tx.currency);
    if w.Some? {
      assert db.wallets[w.value].balance >= 0;
      JsNumber.RoundKeepsSign(tx.amount);
      JsNumber.RoundKeepsSign(db.wallets[w.value].balance);
      JsNumber.RoundKeepsSign(JsNumber.Number(db.wallets[w.value].balance) + JsNumber.Number(tx.amount));
    }
  }

  /** How one delivery moves the database: not at all, or by one operation on the row picked. */
  ghost predicate Delivers(db: Db, event: WebhookEvent, pick: Id, d: Db) {
    var found := FindByRef(db, event.sessionId, pick);
    if found.None? || !AwaitsWebhook(db, found.value) then d == db
    else
      match VerdictOf(event, event.sessionId)
      case Undecided => d == db
      case Expired => d == FailTransaction(db, found.value, EXPIRY_REASON)
      case Paid =>
        var tx := db.transactions[found.value];
        var w := FindWallet(db, tx.userId, tx.currency);
        if Creditable(db, found.value) then Apply(db, OpSettle(w.value, found.value, tx)) == Ok(d)
        else d == db
  }

  lemma HandlingDelivers(db: Db, event: WebhookEvent, pick: Id)
    requires StoreInv(db)
    ensures Delivers(db, event, pick, HandleWebhook(db, event, pick).0)
  {
    hide StoreInv;
    var found := FindByRef(db, event.sessionId, pick);
    if found.Some? && AwaitsWebhook(db, found.value) {
      CreditSucceeds(db, found.value);
    }
    hide Apply;
  }

  lemma HandlingKeepsStore(db: Db, event: WebhookEvent, pick: Id)
    requires StoreInv(db)
    ensures StoreInv(HandleWebhook(db, event, pick).0)
    ensures Grows(db, HandleWebhook(db, event, pick).0)
  {
    var d := HandleWebhook(db, event, pick).0;
    HandlingDelivers(db, event, pick);
    hide StoreInv, HandleWebhook, Grows;
    var found := FindByRef(db, event.sessionId, pick);
    if found.Some? && AwaitsWebhook(db, found.value) {
      CreditSucceeds(db, found.value);
      var tx := db.transactions[found.value];
      var w := FindWallet(db, tx.userId, tx.currency);
      if d != db && VerdictOf(event, event.sessionId) == Paid {
        hide Apply;
        OpKeepsStore(db, OpSettle(w.value, found.value, tx), d);
        EveryOpGrows(db, OpSettle(w.value, found.value, tx));
      } else {
        OpKeepsStore(db, OpFail(found.value, EXPIRY_REASON), FailTransaction(db, found.value, EXPIRY_REASON));
        EveryOpGrows(db, OpFail(found.value, EXPIRY_REASON));
        GrowsReflexive(db);
      }
    } else {
      GrowsReflexive(db);
    }
  }

  // ---- One deposit among all ----

  /** The row and the credit of deposit `t` follow the verdict. */
  ghost predicate Follows(db: Db, t: Id, before: Transaction, v: Verdict) {
    && t in db.transactions && SameRequest(db.transactions[t], before)
    && match v
       case Undecided => db.transactions[t] == before
       case Paid => db.transactions[t] == before.(status := Completed) && HasDeposit(db.ledger, before, db.wallets)
       case Expired =>
         db.transactions[t] == before.(status := Failed, failureReason := Some(EXPIRY_REASON))
         && !HasDeposit(db.ledger, before, db.wallets)
  }

  lemma RefsKept(db: Db, t: Id, providerRef: string, event: WebhookEvent, pick: Id)
    requires StoreInv(db) && SoleRef(db, t, providerRef)
    ensures SoleRef(HandleWebhook(db, event, pick).0, t, providerRef)
  {
    HandlingDelivers(db, event, pick);
    hide StoreInv, HandleWebhook;
    var d := HandleWebhook(db, event, pick).0;
    assert forall u :: HasRef(d, u, providerRef) <==> HasRef(db, u, providerRef);
  }

  lemma OtherDelivery(db: Db, t: Id, providerRef: string, event: WebhookEvent, pick: Id)
    requires StoreInv(db) && SoleRef(db, t, providerRef)
    requires VerdictOf(event, providerRef) == Undecided || !AwaitsWebhook(db, t)
    ensures var d := HandleWebhook(db, event, pick).0;
      && t in d.transactions && d.transactions[t] == db.transactions[t]
      && (Creditable(d, t) <==> Creditable(db, t))
      && NoneUnder(db, d, db.transactions[t].key)
  {
    HandlingDelivers(db, event, pick);
    HandlingKeepsStore(db, event, pick);
    var d := HandleWebhook(db, event, pick).0;
    hide HandleWebhook;
    assert TransactionsUnique(db.transactions) && WalletsUnique(db.wallets) && WalletsUnique(d.wallets);
    hide StoreInv, TransactionsUnique, WalletsUnique;
    if d != db {
      var found := FindByRef(db, event.sessionId, pick).value;
      assert found != t;
      if VerdictOf(event, event.sessionId) == Paid {
        OtherSettlement(db, t, found, d);
      } else {
        assert d == FailTransaction(db, found, EXPIRY_REASON);
        WalletFoundSame(db, d, db.transactions[t].userId, db.transactions[t].currency);
      }
    }
  }

  lemma WalletFoundSame(a: Db, b: Db, userId: Id, currency: string)
    requires forall w :: Owns(a.wallets, w, userId, currency) <==> Owns(b.wallets, w, userId, currency)
    ensures FindWallet(a, userId, currency).Some? <==> FindWallet(b, userId, currency).Some?
  {
  }

  lemma OtherSettlement(db: Db, t: Id, found: Id, d: Db)
    requires TransactionsUnique(db.transactions) && t in db.transactions && found in db.transactions && found != t
    requires var tx := db.transactions[found];
      var w := FindWallet(db, tx.userId, tx.currency);
      w.Some? && Apply(db, OpSettle(w.value, found, tx)) == Ok(d)
    ensures t in d.transactions && d.transactions[t] == db.transactions[t]
    ensures Creditable(d, t) <==> Creditable(db, t)
    ensures NoneUnder(db, d, db.transactions[t].key)
  {
    var row := db.transactions[t];
    var entry := d.ledger[|db.ledger|];
    assert d.ledger == db.ledger + [entry] && entry.key == db.transactions[found].key != row.key;
    assert LedgerKeyUsed(d.ledger, row.key) <==> LedgerKeyUsed(db.ledger, row.key) by {
      if i :| 0 <= i < |db.ledger| && db.ledger[i].key == row.key {
        assert d.ledger[i].key == row.key;
      }
    }
    forall w
      ensures Owns(db.wallets, w, row.userId, row.currency) <==> Owns(d.wallets, w, row.userId, row.currency)
    {
    }
    WalletFoundSame(db, d, row.userId, row.currency);
  }

  lemma OwnDelivery(db: Db, t: Id, providerRef: string, event: WebhookEvent, pick: Id)
    requires StoreInv(db) && SoleRef(db, t, providerRef) && AwaitsWebhook(db, t)
    requires VerdictOf(event, providerRef) != Undecided
    ensures var v := VerdictOf(event, providerRef);
      var d := HandleWebhook(db, event, pick).0;
      if v == Paid && !Creditable(db, t) then d == db else Follows(d, t, db.transactions[t], v)
  {
    HandlingDelivers(db, event, pick);
    CreditSucceeds(db, t);
    if HasDeposit(db.ledger, db.transactions[t], db.wallets) {
      CreditedNotPending(db, t);
    }
    hide StoreInv, HandleWebhook;
    var d := HandleWebhook(db, event, pick).0;
    assert FindByRef(db, event.sessionId, pick) == Some(t);
    var tx := db.transactions[t];
    if VerdictOf(event, providerRef) == Paid && Creditable(db, t) {
      assert IsDepositOf(d.ledger[|db.ledger|], tx, d.wallets);
    }
  }

  lemma CreditedNotPending(db: Db, t: Id)
    requires StoreInv(db) && t in db.transactions && HasDeposit(db.ledger, db.transactions[t], db.wallets)
    ensures !AwaitsWebhook(db, t)
  {
    hide RowsOk, EntriesOk, BalancesMatch, DepositsPosted, TransfersPosted, TransferEventsMatch,
      WalletsUnique, TransfersUnique, LedgerUnique;
    var i :| 0 <= i < |db.ledger| && IsDepositOf(db.ledger[i], db.transactions[t], db.wallets);
    assert Explained(db, db.ledger[i]);
    var u :| Settled(db, db.ledger[i], u);
    assert u == t;
  }

  ghost predicate NoneUnder(a: Db, b: Db, key: string) {
    forall i :: |a.ledger| <= i < |b.ledger| ==> b.ledger[i].key != key
  }

  lemma DepositNotNew(a: Db, b: Db, before: Transaction)
    requires EntriesOk(a.ledger, a.wallets) && Grows(a, b) && NoneUnder(a, b, before.key)
    requires HasDeposit(b.ledger, before, b.wallets)
    ensures HasDeposit(a.ledger, before, a.wallets)
  {
    var i :| 0 <= i < |b.ledger| && IsDepositOf(b.ledger[i], before, b.wallets);
    assert EntryOk(a.ledger[i], a.wallets);
    assert IsDepositOf(a.ledger[i], before, a.wallets);
  }

  lemma FollowsOn(a: Db, b: Db, t: Id, before: Transaction, v: Verdict)
    requires EntriesOk(a.ledger, a.wallets) && Follows(a, t, before, v)
    requires Grows(a, b) && NoneUnder(a, b, before.key) && b.transactions[t] == a.transactions[t]
    ensures Follows(b, t, before, v)
  {
    EvidenceKept(a, b);
    if HasDeposit(b.ledger, before, b.wallets) {
      DepositNotNew(a, b, before);
    }
  }

  lemma {:induction false} DecidedStays(db: Db, t: Id, providerRef: string, before: Transaction, v: Verdict,
          events: seq<Delivery>)
    requires StoreInv(db) && SoleRef(db, t, providerRef) && v != Undecided && Follows(db, t, before, v)
    ensures Follows(HandleAll(db, events), t, before, v)
    decreases |events|
  {
    if events == [] {
    } else {
      var (event, pick) := events[0];
      var d := HandleWebhook(db, event, pick).0;
      HandlingKeepsStore(db, event, pick);
      RefsKept(db, t, providerRef, event, pick);
      assert !AwaitsWebhook(db, t);
      OtherDelivery(db, t, providerRef, event, pick);
      hide StoreInv, SoleRef, HandleWebhook;
      FollowsOn(db, d, t, before, v);
      hide Follows;
      DecidedStays(d, t, providerRef, before, v, events[1..]);
    }
  }

  /** First decisive event wins. For every list of events handled one at a time, about any
      sessions in any order and number, a pending deposit with its own provider reference ends
      as its first expiry, or first paid completion if it is creditable, says: FAILED without
      credit, COMPLETED with its credit, or still untouched. */
  lemma {:induction false} FirstDecisiveEventWins(db: Db, t: Id, providerRef: string, events: seq<Delivery>)
    requires StoreInv(db) && SoleRef(db, t, providerRef) && AwaitsWebhook(db, t)
    ensures Follows(HandleAll(db, events), t, db.transactions[t], FirstVerdict(events, providerRef, Creditable(db, t)))
    decreases |events|
  {
    if events == [] {
    } else {
      var (event, pick) := events[0];
      var before, v := db.transactions[t], VerdictOf(event, providerRef);
      var d := HandleWebhook(db, event, pick).0;
      HandlingKeepsStore(db, event, pick);
      RefsKept(db, t, providerRef, event, pick);
      if v == Undecided {
        OtherDelivery(db, t, providerRef, event, pick);
        hide StoreInv, SoleRef, HandleWebhook, Follows, Creditable;
        FirstDecisiveEventWins(d, t, providerRef, events[1..]);
      } else {
        OwnDelivery(db, t, providerRef, event, pick);
        hide StoreInv, SoleRef, HandleWebhook, Follows, Creditable;
        if v == Paid && !Creditable(db, t) {
          FirstDecisiveEventWins(d, t, providerRef, events[1..]);
        } else {
          DecidedStays(d, t, providerRef, before, v, events[1..]);
        }
      }
    }
  }

  // ---- The whole database ----

  /** Events that concern no session but this one, or nobody. */
  ghost predicate OnlyAbout(db: Db, events: seq<Delivery>, providerRef: string) {
    forall i :: 0 <= i < |events| ==>
      events[i].0.sessionId == providerRef || forall u :: !HasRef(db, u, events[i].0.sessionId)
  }

  /** Once the deposit is decided, further events about its session change nothing at all. */
  lemma {:induction false} LaterEventsIgnored(db: Db, t: Id, providerRef: string, events: seq<Delivery>)
    requires StoreInv(db) && SoleRef(db, t, providerRef) && !AwaitsWebhook(db, t) && OnlyAbout(db, events, providerRef)
    ensures HandleAll(db, events) == db
    decreases |events|
  {
    if events == [] {
    } else {
      HandlingDelivers(db, events[0].0, events[0].1);
      hide StoreInv, HandleWebhook;
      assert HandleWebhook(db, events[0].0, events[0].1).0 == db;
      OnlyAboutRest(db, events, providerRef);
      LaterEventsIgnored(db, t, providerRef, events[1..]);
    }
  }

  /** The database after all events about one session is the database after the first event that
      decided it: duplicates and late events leave no trace anywhere. */
  lemma {:induction false} OneEffect(db: Db, t: Id, providerRef: string, events: seq<Delivery>) returns (k: nat)
    requires StoreInv(db) && SoleRef(db, t, providerRef) && AwaitsWebhook(db, t) && OnlyAbout(db, events, providerRef)
    ensures k <= |events|
    ensures HandleAll(db, events) == if k == |events| then db else HandleWebhook(db, events[k].0, events[k].1).0
    ensures k == |events| <==> FirstVerdict(events, providerRef, Creditable(db, t)) == Undecided
    ensures k < |events| ==> VerdictOf(events[k].0, providerRef) == FirstVerdict(events, providerRef, Creditable(db, t))
    decreases |events|
  {
    if events == [] {
      k := 0;
    } else {
      var (event, pick) := events[0];
      var rest, v := events[1..], VerdictOf(event, providerRef);
      hide StoreInv, HandleWebhook, SoleRef, Creditable;
      if v == Expired || (v == Paid && Creditable(db, t)) {
        DecidingEvent(db, t, providerRef, events);
        k := 0;
      } else {
        IndecisiveEvent(db, t, providerRef, event, pick);
        OnlyAboutRest(db, events, providerRef);
        assert HandleAll(db, events) == HandleAll(db, rest);
        assert FirstVerdict(events, providerRef, Creditable(db, t))
            == FirstVerdict(rest, providerRef, Creditable(db, t));
        hide VerdictOf, OnlyAbout, HandleAll, FirstVerdict;
        var j := OneEffect(db, t, providerRef, rest);
        k := j + 1;
      }
    }
  }

  lemma OnlyAboutRest(db: Db, events: seq<Delivery>, providerRef: string)
    requires OnlyAbout(db, events, providerRef) && events != []
    ensures OnlyAbout(db, events[1..], providerRef)
  {
    assert forall i :: 0 <= i < |events[1..]| ==> events[1..][i] == events[i + 1];
  }

  lemma IndecisiveEvent(db: Db, t: Id, providerRef: string, event: WebhookEvent, pick: Id)
    requires StoreInv(db) && SoleRef(db, t, providerRef) && AwaitsWebhook(db, t)
    requires event.sessionId == providerRef || forall u :: !HasRef(db, u, event.sessionId)
    requires VerdictOf(event, providerRef) == Undecided || (VerdictOf(event, providerRef) == Paid && !Creditable(db, t))
    ensures HandleWebhook(db, event, pick).0 == db
  {
    HandlingDelivers(db, event, pick);
    hide StoreInv, HandleWebhook, Creditable;
  }

  lemma DecidingEvent(db: Db, t: Id, providerRef: string, events: seq<Delivery>)
    requires StoreInv(db) && SoleRef(db, t, providerRef) && AwaitsWebhook(db, t) && OnlyAbout(db, events, providerRef)
    requires events != []
    requires VerdictOf(events[0].0, providerRef) == Expired
          || (VerdictOf(events[0].0, providerRef) == Paid && Creditable(db, t))
    ensures HandleAll(db, events) == HandleWebhook(db, events[0].0, events[0].1).0
  {
    hide StoreInv, HandleWebhook, SoleRef, Creditable, OnlyAbout;
    var (event, pick) := events[0];
    var d := HandleWebhook(db, event, pick).0;
    HandlingKeepsStore(db, event, pick);
    RefsKept(db, t, providerRef, event, pick);
    HandlingDelivers(db, event, pick);
    OwnDelivery(db, t, providerRef, event, pick);
    hide Delivers;
    assert [(event, pick)] + events[1..] == events;
    OnlyAboutLater(db, d, events[1..], providerRef, event, pick);
    LaterEventsIgnored(d, t, providerRef, events[1..]);
  }

  lemma OnlyAboutLater(db: Db, d: Db, rest: seq<Delivery>, providerRef: string, event: WebhookEvent, pick: Id)
    requires OnlyAbout(db, [(event, pick)] + rest, providerRef) && Delivers(db, event, pick, d)
    ensures OnlyAbout(d, rest, providerRef)
  {
    assert forall u, r :: HasRef(d, u, r) <==> HasRef(db, u, r);
    forall i | 0 <= i < |rest|
      ensures rest[i].0.sessionId == providerRef || forall u :: !HasRef(d, u, rest[i].0.sessionId)
    {
      assert ([(event, pick)] + rest)[i + 1] == rest[i];
    }
  }
}
