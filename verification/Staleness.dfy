/** How old a balance returned by `getBalance` can be when requests interleave. */
module Staleness {
  import opened Rows
  import opened Operations
  import opened LedgerViews
  import opened StoreInvariant
  import opened Protocol
  import opened ProtocolInvariant
  import opened Simulation
  import opened Progress

  /** `balance` is what the ledger recorded for the wallet at the given instant. */
  ghost predicate CurrentAt(ledger: seq<LedgerEntry>, times: seq<nat>, walletId: Id, balance: int, instant: nat,
          length: nat) {
    && length <= |ledger| == |times|
    && (forall i :: 0 <= i < length ==> times[i] <= instant)
    && (forall i :: length <= i < |times| ==> instant <= times[i])
    && balance == LastBalance(ledger[..length], walletId)
  }

  ghost predicate SeenOk(s: State, seen: Seen) {
    && seen.readAt <= s.now
    && CurrentAt(s.db.ledger, s.times, seen.walletId, seen.wallet.balance, seen.readAt, seen.readLen)
    && Owns(s.db.wallets, seen.walletId, seen.wallet.userId, seen.wallet.currency)
    && ColonFree(seen.wallet.userId)
  }

  ghost predicate EntryFaithful(s: State, key: string, e: CacheEntry) {
    && SeenOk(s, e.seen)
    && key == BalanceKey(e.seen.wallet.userId, e.seen.wallet.currency)
    && e.seen.readAt <= e.setAt <= s.now
  }

  ghost predicate ReaderOk(s: State, proc: Proc) {
    match proc
    case BGet(userId, _) => ColonFree(userId)
    case BRead(userId, _) => ColonFree(userId)
    case BFill(userId, currency, seen) =>
      SeenOk(s, seen) && seen.wallet.userId == userId && seen.wallet.currency == currency
    case _ => true
  }

  ghost predicate AnswerOk(s: State, a: Answer) {
    && SeenOk(s, a.seen)
    && a.seen.wallet.userId == a.userId && a.seen.wallet.currency == a.currency
    && a.seen.readAt <= a.filledAt <= a.at <= s.now
    && a.at < a.filledAt + BALANCE_CACHE_TTL_MS
  }

  ghost predicate TimesOk(s: State) {
    |s.times| == |s.db.ledger| && forall i :: 0 <= i < |s.times| ==> s.times[i] <= s.now
  }

  ghost predicate CacheOk(s: State) {
    forall key :: key in s.cache ==> EntryFaithful(s, key, s.cache[key])
  }

  ghost predicate ReadersOk(s: State) {
    forall p :: p in s.procs ==> ReaderOk(s, s.procs[p])
  }

  ghost predicate AnswersOk(s: State) {
    forall i :: 0 <= i < |s.answers| ==> AnswerOk(s, s.answers[i])
  }

  ghost predicate ReadsInv(s: State) {
    TimesOk(s) && CacheOk(s) && ReadersOk(s) && AnswersOk(s)
  }

  // ---- What was seen stays a true record of its instant ----

  ghost predicate Evolves(s: State, t: State) {
    && WalletsGrow(s.db.wallets, t.db.wallets)
    && s.db.ledger <= t.db.ledger && s.times <= t.times && |t.times| == |t.db.ledger|
    && s.now <= t.now
    && (forall i :: |s.times| <= i < |t.times| ==> s.now <= t.times[i] <= t.now)
  }

  lemma SeenStays(s: State, t: State, seen: Seen)
    requires SeenOk(s, seen) && TimesOk(s) && Evolves(s, t)
    ensures SeenOk(t, seen)
  {
    assert t.db.ledger[..seen.readLen] == s.db.ledger[..seen.readLen];
    forall i | seen.readLen <= i < |t.times|
      ensures seen.readAt <= t.times[i]
    {
      assert i < |s.times| ==> t.times[i] == s.times[i];
    }
  }

  lemma SimulatedEvolves(s: State, t: State)
    requires TimesOk(s) && Simulated(s, t) && s.now <= t.now
    ensures Evolves(s, t) && TimesOk(t)
  {
    SimulatedGrows(s, t);
    if !Idle(s, t) {
      var op :| Performs(s, op, t);
      hide Apply, OpOk;
      assert t.times == Stamp(s.times, |t.db.ledger|, s.now);
    }
  }

  lemma EvolvesKeeps(s: State, t: State, quiet: State)
    requires ReadsInv(s) && Evolves(s, t) && TimesOk(t)
    requires quiet == t.(cache := s.cache, answers := s.answers, procs := s.procs)
    ensures ReadsInv(quiet)
  {
    forall seen | SeenOk(s, seen)
      ensures SeenOk(quiet, seen)
    {
      SeenStays(s, quiet, seen);
    }
    hide SeenOk;
    assert TimesOk(quiet);
    hide TimesOk;
    assert CacheOk(quiet);
    assert ReadersOk(quiet);
    assert AnswersOk(quiet);
  }

  /** `t` differs from a state where everything seen is recorded truly only in what a step may
      change: one process, dropped cache entries, one filled entry or one answer. */
  lemma ChangeKeeps(q: State, t: State, p: nat, proc: Proc)
    requires ReadsInv(q) && q.db == t.db && q.times == t.times && q.now == t.now
    requires t.procs == q.procs[p := proc] && ReaderOk(q, proc)
    requires forall key :: key in t.cache ==> EntryFaithful(q, key, t.cache[key])
    requires forall i :: 0 <= i < |t.answers| ==> AnswerOk(q, t.answers[i])
    ensures ReadsInv(t)
  {
    assert forall seen :: SeenOk(q, seen) ==> SeenOk(t, seen);
    hide SeenOk;
    assert TimesOk(t);
    hide TimesOk;
    assert CacheOk(t);
    assert ReadersOk(t);
    assert AnswersOk(t);
  }

  lemma BalanceIsLast(s: State, walletId: Id)
    requires BalancesMatch(s.db.wallets, s.db.ledger) && TimesOk(s) && walletId in s.db.wallets
    requires RowsOk(s.db)
    ensures SeenOk(s, Seen(walletId, s.db.wallets[walletId], s.now, |s.db.ledger|))
  {
    assert s.db.ledger[..|s.db.ledger|] == s.db.ledger;
  }

  lemma ReadKeeps(s: State, p: nat, userId: Id, currency: string)
    requires ReadsInv(s) && RowsOk(s.db) && BalancesMatch(s.db.wallets, s.db.ledger)
    requires p in s.procs && s.procs[p] == BRead(userId, currency)
    ensures ReadsInv(ReadBalance(s, p, userId, currency))
  {
    var r := FindWallet(s.db, userId, currency);
    if r.Some? {
      BalanceIsLast(s, r.value);
    }
    var t := ReadBalance(s, p, userId, currency);
    assert ReaderOk(s, t.procs[p]);
    hide RowsOk, BalancesMatch, SeenOk, TimesOk, ReaderOk, EntryFaithful, AnswerOk;
    ChangeKeeps(s, t, p, t.procs[p]);
  }

  lemma GetKeeps(s: State, p: nat, userId: Id, currency: string)
    requires ReadsInv(s) && p in s.procs && s.procs[p] == BGet(userId, currency)
    ensures ReadsInv(GetCached(s, p, userId, currency))
  {
    assert ReaderOk(s, s.procs[p]);
    var key := BalanceKey(userId, currency);
    var t := GetCached(s, p, userId, currency);
    if key in s.cache && s.now < s.cache[key].setAt + BALANCE_CACHE_TTL_MS {
      var e := s.cache[key];
      assert EntryFaithful(s, key, e);
      BalanceKeyInjective(userId, currency, e.seen.wallet.userId, e.seen.wallet.currency);
      assert AnswerOk(s, Answer(userId, currency, e.seen, e.setAt, s.now));
    }
    hide SeenOk, TimesOk, EntryFaithful, AnswerOk;
    ChangeKeeps(s, t, p, t.procs[p]);
  }

  lemma FillKeeps(s: State, p: nat, userId: Id, currency: string, seen: Seen)
    requires ReadsInv(s) && p in s.procs && s.procs[p] == BFill(userId, currency, seen)
    ensures ReadsInv(FillCache(s, p, userId, currency, seen))
  {
    assert ReaderOk(s, s.procs[p]);
    var t := FillCache(s, p, userId, currency, seen);
    assert EntryFaithful(s, BalanceKey(userId, currency), CacheEntry(seen, s.now));
    assert AnswerOk(s, Answer(userId, currency, seen, s.now, s.now));
    hide SeenOk, TimesOk, EntryFaithful, AnswerOk;
    ChangeKeeps(s, t, p, Done);
  }

  lemma ReaderStepKeepsReads(s: State, p: nat, id: Id, gateway: Gateway)
    requires Inv(s) && ReadsInv(s) && CanGo(s, p, id, gateway)
    requires s.procs[p].BGet? || s.procs[p].BRead? || s.procs[p].BFill?
    ensures ReadsInv(Next(s, p, id, gateway))
  {
    hide ReadsInv, LocksExact, OneRunner, Serial, AllOk, IndexesHold, EntriesOk, DepositsPosted, TransfersPosted,
      LedgerExplained, TransferEventsMatch, RowsOk, BalancesMatch, GetCached, ReadBalance, FillCache;
    match s.procs[p]
    case BGet(userId, currency) => GetKeeps(s, p, userId, currency);
    case BRead(userId, currency) => ReadKeeps(s, p, userId, currency);
    case BFill(userId, currency, seen) => FillKeeps(s, p, userId, currency, seen);
  }

  lemma StepKeepsReads(s: State, a: Action)
    requires Inv(s) && ReadsInv(s) && Enabled(s, a)
    ensures ReadsInv(Step(s, a))
  {
    hide Inv, ReadsInv, Next;
    if a.Go? && (s.procs[a.p].BGet? || s.procs[a.p].BRead? || s.procs[a.p].BFill?) {
      ReaderStepKeepsReads(s, a.p, a.id, a.gateway);
    } else {
      hide Simulated, Step;
      StepSimulated(s, a);
      OtherStepKeepsReads(s, a);
    }
  }

  lemma OtherStepKeepsReads(s: State, a: Action)
    requires ReadsInv(s) && Enabled(s, a) && Simulated(s, Step(s, a))
    requires a.Go? ==> !UsesCache(s.procs[a.p]) || s.procs[a.p].Invalidate?
    ensures ReadsInv(Step(s, a))
  {
    var t := Step(s, a);
    hide Simulated, SeenOk, EntryFaithful, AnswerOk, CacheOk, ReadersOk, AnswersOk, TimesOk;
    if a.Go? && !s.procs[a.p].Invalidate? {
      NextAdvances(s, a.p, a.id, a.gateway);
    }
    hide Next;
    SimulatedEvolves(s, t);
    var quiet := t.(cache := s.cache, answers := s.answers, procs := s.procs);
    EvolvesKeeps(s, t, quiet);
    Requiet(quiet, s, t, a);
  }

  lemma Requiet(quiet: State, s: State, t: State, a: Action)
    requires Enabled(s, a) && t == Step(s, a)
    requires quiet == t.(cache := s.cache, answers := s.answers, procs := s.procs) && ReadsInv(quiet)
    requires a.Go? ==> !UsesCache(s.procs[a.p]) || s.procs[a.p].Invalidate?
    ensures ReadsInv(t)
  {
    hide SeenOk, EntryFaithful, AnswerOk, TimesOk;
    match a
    case Arrive(p, proc) => ChangeKeeps(quiet, t, p, proc);
    case Go(p, id, gateway) =>
      if !s.procs[p].Invalidate? {
        NextAdvances(s, p, id, gateway);
        hide Next;
      }
      ChangeKeeps(quiet, t, p, t.procs[p]);
    case Crash(p) => ChangeKeeps(quiet, t, p, Done);
    case Tick(_) => assert quiet == t;
    case Evict(key) => Dropped(quiet, t);
  }

  lemma Dropped(q: State, t: State)
    requires ReadsInv(q) && t == q.(cache := t.cache)
    requires forall key :: key in t.cache ==> key in q.cache && t.cache[key] == q.cache[key]
    ensures ReadsInv(t)
  {
    assert forall seen :: SeenOk(q, seen) ==> SeenOk(t, seen);
    hide SeenOk;
  }

  lemma {:induction false} RunKeepsReads(run: seq<Action>)
    ensures After(run).Some? ==> ReadsInv(After(run).value)
  {
    hide Step, Enabled, Inv;
    if run == [] {
    } else {
      var before := run[..|run| - 1];
      RunKeepsReads(before);
      RunKeeps(before);
      hide ReadsInv;
      if After(run).Some? {
        StepKeepsReads(After(before).value, run[|run| - 1]);
      }
    }
  }

  /** Bounded staleness: every balance ever returned belongs to the requested user and currency,
      is 0 or a committed `balance_after` of that wallet, and was current less than 60 s plus the
      filling reader's read-to-return delay before it was returned. */
  lemma BoundedStaleness(run: seq<Action>, i: nat)
    ensures After(run).Some? && i < |After(run).value.answers| ==>
      var s := After(run).value;
      var a := s.answers[i];
      var delay := a.filledAt - a.seen.readAt;
      && Owns(s.db.wallets, a.seen.walletId, a.userId, a.currency)
      && a.seen.wallet.userId == a.userId && a.seen.wallet.currency == a.currency
      && CurrentAt(s.db.ledger, s.times, a.seen.walletId, a.seen.wallet.balance, a.seen.readAt, a.seen.readLen)
      && delay >= 0 && a.at - a.seen.readAt < 60_000 + delay
      && (a.seen.wallet.balance == 0
          || exists j :: 0 <= j < a.seen.readLen && s.db.ledger[j].walletId == a.seen.walletId
                         && s.db.ledger[j].balanceAfter == a.seen.wallet.balance)
  {
    hide After;
    RunKeepsReads(run);
    if After(run).Some? && i < |After(run).value.answers| {
      var s := After(run).value;
      var seen := s.answers[i].seen;
      assert AnswerOk(s, s.answers[i]);
      hide ReadsInv;
      LastBalanceIsCommitted(s.db.ledger[..seen.readLen], seen.walletId);
    }
  }
}
