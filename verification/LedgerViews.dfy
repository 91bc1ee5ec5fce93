/** What a ledger, read in commit order, says about balances, deposits and events. */
module LedgerViews {
  import opened Rows
  import JsNumber

  function Signed(e: LedgerEntry): int {
    if e.kind == TransferOut then -e.amount else e.amount
  }

  /** The balance the ledger records for a wallet: its last `balance_after`, or 0. */
  function LastBalance(ledger: seq<LedgerEntry>, walletId: Id): int {
    if ledger == [] then 0
    else if ledger[|ledger| - 1].walletId == walletId then ledger[|ledger| - 1].balanceAfter
    else LastBalance(ledger[..|ledger| - 1], walletId)
  }

  /** Each `balance_after` is the wallet's previous one plus or minus the entry's amount. */
  predicate Chain(ledger: seq<LedgerEntry>) {
    ledger == []
    || (var prior, e := ledger[..|ledger| - 1], ledger[|ledger| - 1];
        Chain(prior) && e.balanceAfter == LastBalance(prior, e.walletId) + Signed(e))
  }

  function KindTotal(ledger: seq<LedgerEntry>, walletId: Id, kind: EntryKind): int {
    if ledger == [] then 0
    else
      var e := ledger[|ledger| - 1];
      KindTotal(ledger[..|ledger| - 1], walletId, kind)
      + if e.walletId == walletId && e.kind == kind then e.amount else 0
  }

  function DepositTotal(ledger: seq<LedgerEntry>, currency: string): int {
    if ledger == [] then 0
    else
      var e := ledger[|ledger| - 1];
      DepositTotal(ledger[..|ledger| - 1], currency)
      + if e.kind == Deposit && e.currency == currency then e.amount else 0
  }

  /** Who was credited in which wallet, how much, and in which currency. */
  datatype Credit = Credit(userId: Id, walletId: Id, amount: int, currency: string)

  function OwnerOf(wallets: map<Id, Wallet>, walletId: Id): Id {
    if walletId in wallets then wallets[walletId].userId else ""
  }

  /** The credit of every Deposit entry, in commit order. */
  function DepositEntries(ledger: seq<LedgerEntry>, wallets: map<Id, Wallet>): seq<Credit> {
    if ledger == [] then []
    else
      var e := ledger[|ledger| - 1];
      DepositEntries(ledger[..|ledger| - 1], wallets)
      + if e.kind == Deposit then [Credit(OwnerOf(wallets, e.walletId), e.walletId, e.amount, e.currency)] else []
  }

  function AsRead(e: LedgerEntry, wallets: map<Id, Wallet>): Credit {
    Credit(OwnerOf(wallets, e.walletId), e.walletId, JsNumber.Number(e.amount), e.currency)
  }

  /** The same with each amount as `Number(...)` reads it from the row. */
  function DepositsAsRead(ledger: seq<LedgerEntry>, wallets: map<Id, Wallet>): seq<Credit> {
    if ledger == [] then []
    else
      var e := ledger[|ledger| - 1];
      DepositsAsRead(ledger[..|ledger| - 1], wallets) + if e.kind == Deposit then [AsRead(e, wallets)] else []
  }

  /** What the code computes as the balance after an entry from the balance before it. */
  function Computed(prior: int, e: LedgerEntry): int {
    match e.kind
    case Deposit => JsNumber.Add(JsNumber.Number(prior), JsNumber.Number(e.amount))
    case TransferOut => JsNumber.Sub(JsNumber.Number(prior), e.amount)
    case TransferIn => JsNumber.Add(JsNumber.Number(prior), e.amount)
  }

  /** Each `balance_after` is computed from the wallet's previous one. */
  predicate ComputedChain(ledger: seq<LedgerEntry>) {
    ledger == []
    || (var prior, e := ledger[..|ledger| - 1], ledger[|ledger| - 1];
        ComputedChain(prior) && e.balanceAfter == Computed(LastBalance(prior, e.walletId), e))
  }

  /** The credit each DepositSucceeded event tells of, in commit order. */
  function DepositEvents(outbox: seq<OutboxEvent>): seq<Credit> {
    if outbox == [] then []
    else
      var e := outbox[|outbox| - 1];
      DepositEvents(outbox[..|outbox| - 1])
      + if e.name == DEPOSIT_SUCCEEDED && e.payload.DepositPayload?
        then [Credit(e.payload.userId, e.payload.walletId, e.payload.amount, e.payload.currency)] else []
  }

  /** The transfer ids of the TransferCompleted events, in commit order. */
  function TransferIds(outbox: seq<OutboxEvent>): seq<Id> {
    if outbox == [] then []
    else
      var e := outbox[|outbox| - 1];
      TransferIds(outbox[..|outbox| - 1]) + if e.name == TRANSFER_COMPLETED then [e.aggregateId] else []
  }

  /** By how much an entry's `balance_after` misses the exact result. */
  function Miss(prior: seq<LedgerEntry>, e: LedgerEntry): int {
    e.balanceAfter - LastBalance(prior, e.walletId) - Signed(e)
  }

  /** What rounding has added to a currency, or taken from it if negative. */
  function Drift(ledger: seq<LedgerEntry>, currency: string): int {
    if ledger == [] then 0
    else
      var prior, e := ledger[..|ledger| - 1], ledger[|ledger| - 1];
      Drift(prior, currency) + if e.currency == currency then Miss(prior, e) else 0
  }

  /** What rounding has added to a wallet. */
  function WalletDrift(ledger: seq<LedgerEntry>, walletId: Id): int {
    if ledger == [] then 0
    else
      var prior, e := ledger[..|ledger| - 1], ledger[|ledger| - 1];
      WalletDrift(prior, walletId) + if e.walletId == walletId then Miss(prior, e) else 0
  }

  /** Deposits plus transfers in minus transfers out. */
  function NetOf(ledger: seq<LedgerEntry>, walletId: Id): int {
    KindTotal(ledger, walletId, Deposit) + KindTotal(ledger, walletId, TransferIn)
    - KindTotal(ledger, walletId, TransferOut)
  }

  lemma DriftSnoc(ledger: seq<LedgerEntry>, e: LedgerEntry, currency: string)
    ensures Drift(ledger + [e], currency)
         == Drift(ledger, currency) + if e.currency == currency then Miss(ledger, e) else 0
  {
    assert (ledger + [e])[..|ledger|] == ledger;
  }

  /** A chained ledger has no drift. */
  lemma {:induction false} ChainHasNoDrift(ledger: seq<LedgerEntry>, currency: string, walletId: Id)
    requires Chain(ledger)
    ensures Drift(ledger, currency) == 0 && WalletDrift(ledger, walletId) == 0
  {
    if ledger == [] {
    } else {
      ChainHasNoDrift(ledger[..|ledger| - 1], currency, walletId);
    }
  }

  /** Any ledger's last balance is the net of its entries plus the wallet's drift. */
  lemma {:induction false} BalanceIsNetPlusDrift(ledger: seq<LedgerEntry>, walletId: Id)
    ensures LastBalance(ledger, walletId) == NetOf(ledger, walletId) + WalletDrift(ledger, walletId)
  {
    if ledger == [] {
    } else {
      BalanceIsNetPlusDrift(ledger[..|ledger| - 1], walletId);
    }
  }

  lemma ChainSnoc(ledger: seq<LedgerEntry>, e: LedgerEntry)
    ensures Chain(ledger + [e]) <==>
            Chain(ledger) && e.balanceAfter == LastBalance(ledger, e.walletId) + Signed(e)
  {
    assert (ledger + [e])[..|ledger|] == ledger;
  }

  lemma LastBalanceSnoc(ledger: seq<LedgerEntry>, e: LedgerEntry, walletId: Id)
    ensures LastBalance(ledger + [e], walletId)
         == if e.walletId == walletId then e.balanceAfter else LastBalance(ledger, walletId)
  {
    assert (ledger + [e])[..|ledger|] == ledger;
  }

  lemma DepositTotalSnoc(ledger: seq<LedgerEntry>, e: LedgerEntry, currency: string)
    ensures DepositTotal(ledger + [e], currency)
         == DepositTotal(ledger, currency) + if e.kind == Deposit && e.currency == currency then e.amount else 0
  {
    assert (ledger + [e])[..|ledger|] == ledger;
  }

  lemma DepositsAsReadSnoc(ledger: seq<LedgerEntry>, e: LedgerEntry, wallets: map<Id, Wallet>)
    ensures DepositsAsRead(ledger + [e], wallets)
         == DepositsAsRead(ledger, wallets) + if e.kind == Deposit then [AsRead(e, wallets)] else []
  {
    assert (ledger + [e])[..|ledger|] == ledger;
  }

  /** Wallets keep their owners, so what was credited stays credited to the same user. */
  lemma {:induction false} OwnersKept(ledger: seq<LedgerEntry>, a: map<Id, Wallet>, b: map<Id, Wallet>)
    requires forall i :: 0 <= i < |ledger| ==> OwnerOf(a, ledger[i].walletId) == OwnerOf(b, ledger[i].walletId)
    ensures DepositsAsRead(ledger, a) == DepositsAsRead(ledger, b)
  {
    if ledger == [] {
    } else {
      OwnersKept(ledger[..|ledger| - 1], a, b);
    }
  }

  lemma ComputedChainSnoc(ledger: seq<LedgerEntry>, e: LedgerEntry)
    ensures ComputedChain(ledger + [e]) <==>
            ComputedChain(ledger) && e.balanceAfter == Computed(LastBalance(ledger, e.walletId), e)
  {
    assert (ledger + [e])[..|ledger|] == ledger;
  }

  lemma DepositEventsSnoc(outbox: seq<OutboxEvent>, e: OutboxEvent)
    ensures DepositEvents(outbox + [e]) == DepositEvents(outbox)
         + if e.name == DEPOSIT_SUCCEEDED && e.payload.DepositPayload?
           then [Credit(e.payload.userId, e.payload.walletId, e.payload.amount, e.payload.currency)] else []
  {
    assert (outbox + [e])[..|outbox|] == outbox;
  }

  lemma TransferIdsSnoc(outbox: seq<OutboxEvent>, e: OutboxEvent)
    ensures TransferIds(outbox + [e])
         == TransferIds(outbox) + if e.name == TRANSFER_COMPLETED then [e.aggregateId] else []
  {
    assert (outbox + [e])[..|outbox|] == outbox;
  }

  /** The last balance is 0 for a wallet without entries, otherwise some entry's `balance_after`. */
  lemma {:induction false} LastBalanceIsCommitted(ledger: seq<LedgerEntry>, walletId: Id)
    ensures (LastBalance(ledger, walletId) == 0 && forall i :: 0 <= i < |ledger| ==> ledger[i].walletId != walletId)
         || (exists i :: 0 <= i < |ledger| && ledger[i].walletId == walletId
                         && ledger[i].balanceAfter == LastBalance(ledger, walletId))
  {
    if ledger == [] {
    } else {
      var prior := ledger[..|ledger| - 1];
      if ledger[|ledger| - 1].walletId != walletId {
        LastBalanceIsCommitted(prior, walletId);
        var last := LastBalance(prior, walletId);
        if i :| 0 <= i < |prior| && prior[i].walletId == walletId && prior[i].balanceAfter == last {
          assert ledger[i] == prior[i];
        } else {
          forall i | 0 <= i < |ledger|
            ensures ledger[i].walletId != walletId
          {
            assert i < |prior| ==> ledger[i] == prior[i];
          }
        }
      }
    }
  }

  /** A chained ledger's last balance is deposits plus transfers in minus transfers out. */
  lemma ChainSum(ledger: seq<LedgerEntry>, walletId: Id)
    requires Chain(ledger)
    ensures LastBalance(ledger, walletId) == NetOf(ledger, walletId)
  {
    BalanceIsNetPlusDrift(ledger, walletId);
    ChainHasNoDrift(ledger, "", walletId);
  }

  lemma {:induction false} ChainAt(ledger: seq<LedgerEntry>, i: nat)
    requires Chain(ledger) && i < |ledger|
    ensures ledger[i].balanceAfter == LastBalance(ledger[..i], ledger[i].walletId) + Signed(ledger[i])
  {
    if i == |ledger| - 1 {
    } else {
      var prior := ledger[..|ledger| - 1];
      ChainAt(prior, i);
      assert prior[..i] == ledger[..i];
    }
  }

  lemma {:induction false} ComputedChainAt(ledger: seq<LedgerEntry>, i: nat)
    requires ComputedChain(ledger) && i < |ledger|
    ensures ledger[i].balanceAfter == Computed(LastBalance(ledger[..i], ledger[i].walletId), ledger[i])
  {
    if i == |ledger| - 1 {
    } else {
      var prior := ledger[..|ledger| - 1];
      ComputedChainAt(prior, i);
      assert prior[..i] == ledger[..i];
    }
  }

  lemma {:induction false} ComputedChainPrefix(ledger: seq<LedgerEntry>, i: nat)
    requires ComputedChain(ledger) && i <= |ledger|
    ensures ComputedChain(ledger[..i])
  {
    if i == |ledger| {
      assert ledger[..i] == ledger;
    } else {
      ComputedChainPrefix(ledger[..|ledger| - 1], i);
      assert ledger[..|ledger| - 1][..i] == ledger[..i];
    }
  }

  lemma {:induction false} BalancesAreDoubles(ledger: seq<LedgerEntry>, walletId: Id)
    requires ComputedChain(ledger)
    ensures JsNumber.Representable(LastBalance(ledger, walletId))
  {
    if ledger == [] {
      JsNumber.RoundExact(0);
    } else {
      var prior, e := ledger[..|ledger| - 1], ledger[|ledger| - 1];
      BalancesAreDoubles(prior, walletId);
      var before := JsNumber.Number(LastBalance(prior, e.walletId));
      JsNumber.RoundTwice(before + JsNumber.Number(e.amount));
      JsNumber.RoundTwice(before - e.amount);
      JsNumber.RoundTwice(before + e.amount);
    }
  }

  ghost predicate DepositsRepresentable(ledger: seq<LedgerEntry>) {
    forall i :: 0 <= i < |ledger| && ledger[i].kind == Deposit ==> JsNumber.Representable(ledger[i].amount)
  }

  /** The amounts read are the amounts stored exactly when each of them is a double. */
  lemma {:induction false} ReadsAreEntriesIff(ledger: seq<LedgerEntry>, wallets: map<Id, Wallet>)
    ensures |DepositsAsRead(ledger, wallets)| == |DepositEntries(ledger, wallets)|
    ensures DepositsAsRead(ledger, wallets) == DepositEntries(ledger, wallets) <==> DepositsRepresentable(ledger)
  {
    if ledger == [] {
    } else {
      var prior, e := ledger[..|ledger| - 1], ledger[|ledger| - 1];
      ReadsAreEntriesIff(prior, wallets);
      RepresentableSnoc(prior, e);
      assert ledger == prior + [e];
      hide DepositsRepresentable;
      if e.kind == Deposit {
        SameSnoc(DepositsAsRead(prior, wallets), AsRead(e, wallets),
                 DepositEntries(prior, wallets), AsRead(e, wallets).(amount := e.amount));
      } else {
        assert DepositsAsRead(ledger, wallets) == DepositsAsRead(prior, wallets);
        assert DepositEntries(ledger, wallets) == DepositEntries(prior, wallets);
      }
    }
  }

  lemma RepresentableSnoc(prior: seq<LedgerEntry>, e: LedgerEntry)
    ensures DepositsRepresentable(prior + [e]) <==>
            DepositsRepresentable(prior) && (e.kind == Deposit ==> JsNumber.Representable(e.amount))
  {
    if DepositsRepresentable(prior + [e]) {
      assert forall i :: 0 <= i < |prior| ==> (prior + [e])[i] == prior[i];
      assert (prior + [e])[|prior|] == e;
    }
  }

  lemma SameSnoc<T>(a: seq<T>, x: T, b: seq<T>, y: T)
    requires |a| == |b|
    ensures a + [x] == b + [y] <==> a == b && x == y
  {
    if a + [x] == b + [y] {
      assert a == (a + [x])[..|a|] && b == (b + [y])[..|b|];
      assert x == (a + [x])[|a|] && y == (b + [y])[|b|];
    }
  }

  lemma {:induction false} DepositTotalMonotone(a: seq<LedgerEntry>, b: seq<LedgerEntry>, currency: string)
    requires forall i :: 0 <= i < |b| ==> b[i].amount >= 1
    ensures DepositTotal(a, currency) <= DepositTotal(a + b, currency)
  {
    if b == [] {
      assert a + b == a;
    } else {
      DepositTotalMonotone(a, b[..|b| - 1], currency);
      assert a + b == (a + b[..|b| - 1]) + [b[|b| - 1]];
      DepositTotalSnoc(a + b[..|b| - 1], b[|b| - 1], currency);
    }
  }
}
