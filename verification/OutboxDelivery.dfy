/** How often an event of the outbox is enqueued, over any sequence of passes and arrivals. */
module OutboxDelivery {
  import opened Rows
  import opened Outbox

  function Copies(box: Outbox, i: nat): nat {
    multiset(box.queue)[i]
  }

  /** Every failed attempt is counted, even if counting it then throws. */
  ghost predicate AllCounted(oracle: Oracle) {
    forall k: nat :: oracle(k).attempt.Published? || Increments(oracle(k))
  }

  /** No attempt ends the pass. */
  ghost predicate NeverEnds(oracle: Oracle) {
    forall k: nat :: GoesOn(oracle(k))
  }

  /** The rest of a batch still consists of distinct eligible rows. */
  ghost predicate Remaining(rows: seq<OutboxRow>, batch: seq<nat>, k: nat) {
    k <= |batch| && Distinct(batch) && (forall a :: 0 <= a < |batch| ==> batch[a] < |rows|)
    && forall a :: k <= a < |batch| ==> EligibleAt(rows, batch[a])
  }

  lemma RemainingNext(box: Outbox, batch: seq<nat>, k: nat, o: Outcome)
    requires Remaining(box.rows, batch, k) && k < |batch|
    ensures Remaining(PublishOne(box, batch[k], o).0.rows, batch, k + 1)
  {
  }

  // ---- Passes and arrivals ----

  datatype Pass = Pass(batch: seq<nat>, oracle: Oracle)

  /** A pass, and the rows inserted before the next one. */
  datatype Round = Round(pass: Pass, arrivals: seq<OutboxRow>)

  ghost predicate LegalPass(box: Outbox, pass: Pass) {
    IsBatch(box.rows, pass.batch)
  }

  lemma BatchRemaining(rows: seq<OutboxRow>, batch: seq<nat>)
    requires IsBatch(rows, batch)
    ensures Remaining(rows, batch, 0)
  {
    assert forall k :: 0 <= k < |batch| ==> EligibleAt(rows, batch[k]);
  }

  ghost function AfterPass(box: Outbox, pass: Pass): Outbox
    requires LegalPass(box, pass)
  {
    BatchRemaining(box.rows, pass.batch);
    PublishFrom(box, pass.batch, 0, pass.oracle).0
  }

  ghost function AfterRound(box: Outbox, round: Round): Outbox
    requires LegalPass(box, round.pass)
  {
    var after := AfterPass(box, round.pass);
    Outbox(after.rows + round.arrivals, after.queue)
  }

  /** Some rounds one after the other; `None` when one is not legal where it starts. */
  ghost function AfterRounds(box: Outbox, rounds: seq<Round>): Option<Outbox>
    decreases |rounds|
  {
    if rounds == [] then Some(box)
    else if LegalPass(box, rounds[0].pass) then AfterRounds(AfterRound(box, rounds[0]), rounds[1..])
    else None
  }

  /** Rows as the repositories insert them. */
  predicate Fresh(rows: seq<OutboxRow>) {
    forall j :: 0 <= j < |rows| ==> !rows[j].processed && rows[j].retryCount == 0
  }

  ghost predicate FreshArrivals(rounds: seq<Round>) {
    forall r :: 0 <= r < |rounds| ==> Fresh(rounds[r].arrivals)
  }

  /** Every failed attempt is counted. */
  ghost predicate CountedRounds(rounds: seq<Round>) {
    forall r :: 0 <= r < |rounds| ==> AllCounted(rounds[r].pass.oracle)
  }

  ghost predicate QueueKnown(box: Outbox) {
    forall k :: 0 <= k < |box.queue| ==> box.queue[k] < |box.rows|
  }

  lemma {:induction false} PassKeepsQueueKnown(box: Outbox, batch: seq<nat>, k: nat, oracle: Oracle)
    requires QueueKnown(box) && k <= |batch| && forall a :: 0 <= a < |batch| ==> batch[a] < |box.rows|
    ensures QueueKnown(PublishFrom(box, batch, k, oracle).0)
    decreases |batch| - k
  {
    if k == |batch| {
    } else {
      hide Attempted, Enqueues;
      PassKeepsQueueKnown(PublishOne(box, batch[k], oracle(k)).0, batch, k + 1, oracle);
    }
  }

  // ---- What happens to one row ----

  /** The outcomes of the attempts a pass makes for row `i`. */
  function Tries(batch: seq<nat>, k: nat, oracle: Oracle, i: nat): seq<Outcome>
    requires k <= |batch|
    decreases |batch| - k
  {
    if k == |batch| then []
    else
      (if batch[k] == i then [oracle(k)] else [])
      + if GoesOn(oracle(k)) then Tries(batch, k + 1, oracle, i) else []
  }

  ghost function RoundTries(box: Outbox, rounds: seq<Round>, i: nat): seq<Outcome>
    decreases |rounds|
  {
    if rounds == [] || !LegalPass(box, rounds[0].pass) then []
    else Tries(rounds[0].pass.batch, 0, rounds[0].pass.oracle, i)
         + RoundTries(AfterRound(box, rounds[0]), rounds[1..], i)
  }

  /** A row and the copies of it on the queue after some attempts. */
  datatype Trail = Trail(row: OutboxRow, copies: nat)

  function Try(t: Trail, o: Outcome): Trail {
    Trail(Attempted(t.row, o), t.copies + if Enqueues(o) then 1 else 0)
  }

  function Tried(t: Trail, outcomes: seq<Outcome>): Trail
    decreases |outcomes|
  {
    if outcomes == [] then t else Tried(Try(t, outcomes[0]), outcomes[1..])
  }

  /** Each attempt finds the row eligible. */
  predicate WhileEligible(t: Trail, outcomes: seq<Outcome>)
    decreases |outcomes|
  {
    outcomes == [] || (Eligible(t.row) && WhileEligible(Try(t, outcomes[0]), outcomes[1..]))
  }

  ghost function TrailOf(box: Outbox, i: nat): Trail
    requires i < |box.rows|
  {
    Trail(box.rows[i], Copies(box, i))
  }

  lemma {:induction false} TriedConcat(t: Trail, a: seq<Outcome>, b: seq<Outcome>)
    ensures Tried(t, a + b) == Tried(Tried(t, a), b)
    ensures WhileEligible(t, a) && WhileEligible(Tried(t, a), b) ==> WhileEligible(t, a + b)
    decreases |a|
  {
    if a == [] {
      assert a + b == b;
    } else {
      assert (a + b)[1..] == a[1..] + b && (a + b)[0] == a[0];
      hide Try;
      TriedConcat(Try(t, a[0]), a[1..], b);
    }
  }

  /** One event of a batch, seen from row `i`. */
  lemma OneTried(box: Outbox, j: nat, o: Outcome, i: nat)
    requires EligibleAt(box.rows, j) && i < |box.rows|
    ensures var next, first := PublishOne(box, j, o).0, if j == i then [o] else [];
      TrailOf(next, i) == Tried(TrailOf(box, i), first) && WhileEligible(TrailOf(box, i), first)
  {
    assert multiset(box.queue + [j]) == multiset(box.queue) + multiset{j};
    assert [o][1..] == [];
    hide Attempted, Enqueues;
    assert Tried(TrailOf(box, i), [o]) == Try(TrailOf(box, i), o);
  }

  /** A pass treats row `i` as its attempts for it say, each of which finds it eligible. */
  lemma {:induction false} PassTries(box: Outbox, batch: seq<nat>, k: nat, oracle: Oracle, i: nat)
    requires Remaining(box.rows, batch, k) && i < |box.rows|
    ensures var end, tries := PublishFrom(box, batch, k, oracle).0, Tries(batch, k, oracle, i);
      TrailOf(end, i) == Tried(TrailOf(box, i), tries) && WhileEligible(TrailOf(box, i), tries)
    decreases |batch| - k
  {
    hide Tried, WhileEligible, Attempted, Enqueues, Copies, TrailOf, Distinct;
    if k == |batch| {
      NothingTried(TrailOf(box, i));
    } else {
      var o := oracle(k);
      var next := PublishOne(box, batch[k], o).0;
      var first: seq<Outcome> := if batch[k] == i then [o] else [];
      var rest: seq<Outcome> := if GoesOn(o) then Tries(batch, k + 1, oracle, i) else [];
      var end := PublishFrom(box, batch, k, oracle).0;
      assert Tries(batch, k, oracle, i) == first + rest;
      assert end == if GoesOn(o) then PublishFrom(next, batch, k + 1, oracle).0 else next;
      assert EligibleAt(box.rows, batch[k]);
      RemainingNext(box, batch, k, o);
      hide Remaining;
      OneTried(box, batch[k], o, i);
      if GoesOn(o) {
        PassTries(next, batch, k + 1, oracle, i);
      } else {
        NothingTried(TrailOf(next, i));
      }
      hide Tries, PublishFrom, PublishOne;
      TriedConcat(TrailOf(box, i), first, rest);
    }
  }

  lemma NothingTried(t: Trail)
    ensures Tried(t, []) == t && WhileEligible(t, [])
  {
  }

  /** So do any rounds, as long as the row was there from the start. */
  lemma {:induction false} RoundsTry(box: Outbox, rounds: seq<Round>, i: nat)
    requires i < |box.rows| && AfterRounds(box, rounds).Some?
    ensures var end, tries := AfterRounds(box, rounds).value, RoundTries(box, rounds, i);
      i < |end.rows| && TrailOf(end, i) == Tried(TrailOf(box, i), tries) && WhileEligible(TrailOf(box, i), tries)
    decreases |rounds|
  {
    if rounds == [] {
    } else {
      var pass, next := rounds[0].pass, AfterRound(box, rounds[0]);
      BatchRemaining(box.rows, pass.batch);
      PassTries(box, pass.batch, 0, pass.oracle, i);
      assert TrailOf(next, i) == TrailOf(AfterPass(box, pass), i);
      var tries := Tries(pass.batch, 0, pass.oracle, i);
      hide LegalPass, Tried, WhileEligible, TrailOf, Tries, AfterPass;
      RoundsTry(next, rounds[1..], i);
      TriedConcat(TrailOf(box, i), tries, RoundTries(next, rounds[1..], i));
    }
  }

  // ---- Delivery accounting ----

  /** An attempt that enqueued a copy although its failure was not counted. */
  predicate UncountedCopy(o: Outcome) {
    !o.attempt.Published? && !Increments(o) && Enqueues(o)
  }

  function UncountedIn(outcomes: seq<Outcome>): nat
    decreases |outcomes|
  {
    if outcomes == [] then 0 else (if UncountedCopy(outcomes[0]) then 1 else 0) + UncountedIn(outcomes[1..])
  }

  /** A processed row was enqueued; a row was enqueued, is eligible or is abandoned at 5; and but for
      `uncounted` copies, there are at most as many as counted failures, plus one if processed,
      and never more than 5. */
  ghost predicate Accounted(t: Trail, uncounted: nat) {
    && t.row.retryCount <= MAX_RETRIES
    && (t.row.processed ==> t.copies >= 1)
    && (t.copies >= 1 || Eligible(t.row) || t.row.retryCount == MAX_RETRIES)
    && (Eligible(t.row) ==> t.copies <= t.row.retryCount + uncounted)
    && t.copies <= t.row.retryCount + (if t.row.processed then 1 else 0) + uncounted
    && t.copies <= MAX_RETRIES + uncounted
  }

  lemma OneAccounted(t: Trail, o: Outcome, uncounted: nat)
    requires Accounted(t, uncounted) && Eligible(t.row)
    ensures Accounted(Try(t, o), uncounted + if UncountedCopy(o) then 1 else 0)
  {
  }

  lemma {:induction false} TriesAccounted(t: Trail, outcomes: seq<Outcome>, uncounted: nat)
    requires Accounted(t, uncounted) && WhileEligible(t, outcomes)
    ensures Accounted(Tried(t, outcomes), uncounted + UncountedIn(outcomes))
    decreases |outcomes|
  {
    if outcomes == [] {
    } else {
      var o := outcomes[0];
      OneAccounted(t, o, uncounted);
      hide Accounted, Try, UncountedCopy;
      TriesAccounted(Try(t, o), outcomes[1..], uncounted + if UncountedCopy(o) then 1 else 0);
    }
  }

  lemma {:induction false} UncountedConcat(a: seq<Outcome>, b: seq<Outcome>)
    ensures UncountedIn(a + b) == UncountedIn(a) + UncountedIn(b)
    decreases |a|
  {
    if a == [] {
      assert a + b == b;
    } else {
      assert (a + b)[1..] == a[1..] + b;
      UncountedConcat(a[1..], b);
    }
  }

  /** A pass makes no attempt for a row that is not in its batch. */
  lemma {:induction false} NotInBatch(batch: seq<nat>, k: nat, oracle: Oracle, i: nat)
    requires k <= |batch| && i !in batch
    ensures Tries(batch, k, oracle, i) == []
    decreases |batch| - k
  {
    if k == |batch| {
    } else {
      NotInBatch(batch, k + 1, oracle, i);
    }
  }

  lemma PresentAccounted(box: Outbox, pass: Pass, i: nat, uncounted: nat)
    requires LegalPass(box, pass) && i < |box.rows| && Accounted(TrailOf(box, i), uncounted)
    ensures var after := AfterPass(box, pass);
      |after.rows| == |box.rows|
      && Accounted(TrailOf(after, i), uncounted + UncountedIn(Tries(pass.batch, 0, pass.oracle, i)))
  {
    hide IsBatch, Accounted, UncountedIn, Tries, TrailOf, Tried, WhileEligible;
    BatchRemaining(box.rows, pass.batch);
    PassTries(box, pass.batch, 0, pass.oracle, i);
    TriesAccounted(TrailOf(box, i), Tries(pass.batch, 0, pass.oracle, i), uncounted);
  }

  lemma QueueStaysKnown(box: Outbox, pass: Pass)
    requires LegalPass(box, pass) && QueueKnown(box)
    ensures QueueKnown(AfterPass(box, pass)) && |AfterPass(box, pass).rows| == |box.rows|
    ensures forall a :: 0 <= a < |pass.batch| ==> pass.batch[a] < |box.rows|
  {
    hide IsBatch, QueueKnown, Distinct;
    BatchRemaining(box.rows, pass.batch);
    PassKeepsQueueKnown(box, pass.batch, 0, pass.oracle);
  }

  lemma ArrivalAccounted(after: Outbox, arrivals: seq<OutboxRow>, i: nat, uncounted: nat)
    requires QueueKnown(after) && Fresh(arrivals)
    requires i < |after.rows| ==> Accounted(TrailOf(after, i), uncounted)
    ensures var next := Outbox(after.rows + arrivals, after.queue);
      QueueKnown(next) && (i < |next.rows| ==> Accounted(TrailOf(next, i), uncounted))
  {
    var next := Outbox(after.rows + arrivals, after.queue);
    if i < |after.rows| {
      assert TrailOf(next, i) == TrailOf(after, i);
    } else if i < |next.rows| {
      assert next.rows[i] == arrivals[i - |after.rows|];
      assert i !in after.queue;
    }
  }

  /** One row through one round; it may arrive at its end. */
  lemma RoundAccounted(box: Outbox, round: Round, i: nat, uncounted: nat)
    requires LegalPass(box, round.pass) && QueueKnown(box) && Fresh(round.arrivals)
    requires i < |box.rows| ==> Accounted(TrailOf(box, i), uncounted)
    ensures var next, tries := AfterRound(box, round), Tries(round.pass.batch, 0, round.pass.oracle, i);
      QueueKnown(next) && (i < |next.rows| ==> Accounted(TrailOf(next, i), uncounted + UncountedIn(tries)))
  {
    hide LegalPass, AfterPass, QueueKnown, Accounted, Tries, TrailOf, UncountedIn, Fresh;
    QueueStaysKnown(box, round.pass);
    if i < |box.rows| {
      PresentAccounted(box, round.pass, i, uncounted);
    } else {
      NotInBatch(round.pass.batch, 0, round.pass.oracle, i);
    }
    ArrivalAccounted(AfterPass(box, round.pass), round.arrivals, i,
                     uncounted + UncountedIn(Tries(round.pass.batch, 0, round.pass.oracle, i)));
  }

  lemma FreshTail(rounds: seq<Round>)
    requires FreshArrivals(rounds) && rounds != []
    ensures Fresh(rounds[0].arrivals) && FreshArrivals(rounds[1..])
  {
    assert forall r :: 0 <= r < |rounds[1..]| ==> rounds[1..][r] == rounds[r + 1];
  }

  lemma {:induction false} RoundsAccounted(box: Outbox, rounds: seq<Round>, i: nat, uncounted: nat)
    requires QueueKnown(box) && FreshArrivals(rounds)
    requires i < |box.rows| ==> Accounted(TrailOf(box, i), uncounted)
    ensures AfterRounds(box, rounds).Some? ==>
      var end := AfterRounds(box, rounds).value;
      i < |end.rows| ==> Accounted(TrailOf(end, i), uncounted + UncountedIn(RoundTries(box, rounds, i)))
    decreases |rounds|
  {
    hide Accounted, QueueKnown, FreshArrivals, Fresh, LegalPass, AfterRound, Tries, TrailOf;
    if rounds == [] {
    } else if LegalPass(box, rounds[0].pass) {
      hide UncountedIn;
      var round, next := rounds[0], AfterRound(box, rounds[0]);
      var tries := Tries(round.pass.batch, 0, round.pass.oracle, i);
      FreshTail(rounds);
      RoundAccounted(box, round, i, uncounted);
      UncountedConcat(tries, RoundTries(next, rounds[1..], i));
      RoundsAccounted(next, rounds[1..], i, uncounted + UncountedIn(tries));
    }
  }

  lemma {:induction false} CountedTries(batch: seq<nat>, k: nat, oracle: Oracle, i: nat)
    requires k <= |batch| && AllCounted(oracle)
    ensures UncountedIn(Tries(batch, k, oracle, i)) == 0
    decreases |batch| - k
  {
    if k == |batch| {
    } else {
      assert oracle(k).attempt.Published? || Increments(oracle(k));
      CountedTries(batch, k + 1, oracle, i);
      var first: seq<Outcome> := if batch[k] == i then [oracle(k)] else [];
      UncountedConcat(first, if GoesOn(oracle(k)) then Tries(batch, k + 1, oracle, i) else []);
    }
  }

  lemma {:induction false} CountedRoundTries(box: Outbox, rounds: seq<Round>, i: nat)
    requires CountedRounds(rounds)
    ensures UncountedIn(RoundTries(box, rounds, i)) == 0
    decreases |rounds|
  {
    if rounds == [] {
    } else if LegalPass(box, rounds[0].pass) {
      var pass, next := rounds[0].pass, AfterRound(box, rounds[0]);
      assert AllCounted(pass.oracle);
      assert CountedRounds(rounds[1..]) by {
        assert forall r :: 0 <= r < |rounds[1..]| ==> rounds[1..][r] == rounds[r + 1];
      }
      CountedTries(pass.batch, 0, pass.oracle, i);
      hide CountedRounds, LegalPass, AfterRound;
      CountedRoundTries(next, rounds[1..], i);
      UncountedConcat(Tries(pass.batch, 0, pass.oracle, i), RoundTries(next, rounds[1..], i));
    }
  }

  lemma FreshAccounted(rows: seq<OutboxRow>, i: nat)
    requires Fresh(rows)
    ensures QueueKnown(Outbox(rows, [])) && (i < |rows| ==> Accounted(TrailOf(Outbox(rows, []), i), 0))
  {
  }

  /** Delivery accounting for every row, from a table of fresh rows and an empty queue, over any
      rounds with any arrivals, whatever fails; if failures are counted, no copies are uncounted. */
  lemma DeliveryAccounted(rows: seq<OutboxRow>, rounds: seq<Round>, i: nat)
    requires Fresh(rows) && FreshArrivals(rounds)
    ensures var box := Outbox(rows, []);
      AfterRounds(box, rounds).Some? && i < |AfterRounds(box, rounds).value.rows| ==>
        Accounted(TrailOf(AfterRounds(box, rounds).value, i), UncountedIn(RoundTries(box, rounds, i)))
    ensures CountedRounds(rounds) ==> UncountedIn(RoundTries(Outbox(rows, []), rounds, i)) == 0
  {
    hide Accounted, TrailOf, QueueKnown, AfterRounds, RoundTries, UncountedIn, FreshArrivals, CountedRounds;
    FreshAccounted(rows, i);
    RoundsAccounted(Outbox(rows, []), rounds, i, 0);
    if CountedRounds(rounds) {
      CountedRoundTries(Outbox(rows, []), rounds, i);
    }
  }

  // ---- At-least-once delivery ----

  function CountOf(outcomes: seq<Outcome>): nat
    decreases |outcomes|
  {
    if outcomes == [] then 0 else (if Increments(outcomes[0]) then 1 else 0) + CountOf(outcomes[1..])
  }

  /** All these attempts ended in an add that did not take effect. */
  predicate AllRejected(outcomes: seq<Outcome>) {
    forall k :: 0 <= k < |outcomes| ==> outcomes[k].attempt == AddRejected(false)
  }

  lemma {:induction false} CopiesKept(t: Trail, outcomes: seq<Outcome>)
    ensures Tried(t, outcomes).copies >= t.copies
    decreases |outcomes|
  {
    if outcomes == [] {
    } else {
      CopiesKept(Try(t, outcomes[0]), outcomes[1..]);
    }
  }

  lemma {:induction false} AbandonedIff(t: Trail, outcomes: seq<Outcome>)
    requires WhileEligible(t, outcomes) && !t.row.processed && t.row.retryCount <= MAX_RETRIES && t.copies == 0
    ensures var end := Tried(t, outcomes);
      !Eligible(end.row) && end.copies == 0
      <==> AllRejected(outcomes) && CountOf(outcomes) == MAX_RETRIES - t.row.retryCount
    decreases |outcomes|
  {
    if outcomes == [] {
    } else {
      var o, rest := outcomes[0], outcomes[1..];
      var next := Try(t, o);
      if o.attempt == AddRejected(false) {
        AbandonedIff(next, rest);
        assert AllRejected(outcomes) <==> AllRejected(rest) by {
          assert forall k :: 1 <= k < |outcomes| ==> outcomes[k] == rest[k - 1];
        }
      } else {
        CopiesKept(next, rest);
      }
    }
  }

  /** At-least-once delivery is not guaranteed: over any rounds, an event is given up without ever
      having been enqueued exactly when each attempt for it ended in an add that did not take
      effect and these attempts used up its retries. */
  lemma NeverDeliveredIff(box: Outbox, rounds: seq<Round>, i: nat)
    requires i < |box.rows| && AfterRounds(box, rounds).Some?
    requires !box.rows[i].processed && box.rows[i].retryCount <= MAX_RETRIES && Copies(box, i) == 0
    ensures var end, tries := AfterRounds(box, rounds).value, RoundTries(box, rounds, i);
      i < |end.rows|
      && (!Eligible(end.rows[i]) && Copies(end, i) == 0
          <==> AllRejected(tries) && CountOf(tries) == MAX_RETRIES - box.rows[i].retryCount)
  {
    RoundsTry(box, rounds, i);
    AbandonedIff(TrailOf(box, i), RoundTries(box, rounds, i));
  }

  const ADD_FAILS: Oracle := _ => Outcome(AddRejected(false), Counted)
  const MARK_AND_COUNT_FAIL: Oracle := _ => Outcome(MarkRejected(false), CountRejected(false))

  /** A lone event that the queue rejects each time. */
  lemma {:induction false} RejectedRounds(event: OutboxEvent, createdAt: nat, retries: nat, n: nat)
          returns (rounds: seq<Round>)
    requires retries + n <= MAX_RETRIES
    ensures |rounds| == n
    ensures AfterRounds(Outbox([OutboxRow(event, createdAt, false, retries)], []), rounds)
         == Some(Outbox([OutboxRow(event, createdAt, false, retries + n)], []))
    decreases n
  {
    var box := Outbox([OutboxRow(event, createdAt, false, retries)], []);
    if n == 0 {
      rounds := [];
    } else {
      var round := Round(Pass([0], ADD_FAILS), []);
      var next := Outbox([OutboxRow(event, createdAt, false, retries + 1)], []);
      var rest := RejectedRounds(event, createdAt, retries + 1, n - 1);
      rounds := [round] + rest;
      RejectedRound(event, createdAt, retries);
      hide LegalPass, AfterRound;
      assert rounds[1..] == rest;
    }
  }

  lemma RejectedRound(event: OutboxEvent, createdAt: nat, retries: nat)
    requires retries < MAX_RETRIES
    ensures var box := Outbox([OutboxRow(event, createdAt, false, retries)], []);
      var round := Round(Pass([0], ADD_FAILS), []);
      LegalPass(box, round.pass)
      && AfterRound(box, round) == Outbox([OutboxRow(event, createdAt, false, retries + 1)], [])
  {
    var box := Outbox([OutboxRow(event, createdAt, false, retries)], []);
    var next := Outbox([OutboxRow(event, createdAt, false, retries + 1)], []);
    assert EligibleAt(box.rows, 0) && IsBatch(box.rows, [0]);
    hide IsBatch;
    assert box.rows[0 := next.rows[0]] == next.rows;
    assert PublishOne(box, 0, ADD_FAILS(0)) == (next, true);
    assert PublishFrom(next, [0], 1, ADD_FAILS) == (next, true);
    assert next.rows + [] == next.rows;
  }

  /** Five passes abandon an event that never reached the queue. */
  lemma AbandonedInFivePasses(event: OutboxEvent, createdAt: nat) returns (rounds: seq<Round>)
    ensures |rounds| == 5
    ensures var end := AfterRounds(Outbox([OutboxRow(event, createdAt, false, 0)], []), rounds);
      && end.Some? && end.value.queue == [] && |end.value.rows| == 1
      && !Eligible(end.value.rows[0]) && !end.value.rows[0].processed
  {
    rounds := RejectedRounds(event, createdAt, 0, 5);
  }

  /** Without the count there is no bound: if `markProcessed` and `markFailedAttempt` keep
      failing after the add, each pass enqueues one more copy of the oldest event. */
  lemma {:induction false} UncountedCopiesUnbounded(box: Outbox, batch: seq<nat>, n: nat) returns (rounds: seq<Round>)
    requires IsBatch(box.rows, batch) && batch != []
    ensures |rounds| == n && AfterRounds(box, rounds).Some?
    ensures var end := AfterRounds(box, rounds).value;
      end.rows == box.rows && Copies(end, batch[0]) == Copies(box, batch[0]) + n
    decreases n
  {
    if n == 0 {
      rounds := [];
    } else {
      var round := Round(Pass(batch, MARK_AND_COUNT_FAIL), []);
      var next := UncountedPass(box, batch, round);
      var rest := UncountedCopiesUnbounded(next, batch, n - 1);
      rounds := [round] + rest;
      assert rounds[1..] == rest && LegalPass(box, round.pass);
      hide LegalPass, AfterRound, Copies;
    }
  }

  lemma UncountedPass(box: Outbox, batch: seq<nat>, round: Round) returns (next: Outbox)
    requires IsBatch(box.rows, batch) && batch != [] && round == Round(Pass(batch, MARK_AND_COUNT_FAIL), [])
    ensures next == AfterRound(box, round) && next.rows == box.rows
    ensures Copies(next, batch[0]) == Copies(box, batch[0]) + 1
  {
    BatchRemaining(box.rows, batch);
    hide IsBatch;
    next := AfterRound(box, round);
    var i := batch[0];
    assert box.rows[i := box.rows[i]] == box.rows;
    assert PublishFrom(box, batch, 0, MARK_AND_COUNT_FAIL) == (Outbox(box.rows, box.queue + [i]), false);
    assert multiset(box.queue + [i]) == multiset(box.queue) + multiset{i};
    assert box.rows + [] == box.rows;
  }
}
