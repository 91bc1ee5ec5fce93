/** One pass of the outbox publisher: which rows it takes and what each attempt leaves behind. */
module Outbox {
  import opened Rows

  const MAX_RETRIES := 5
  const BATCH_LIMIT := 50

  datatype OutboxRow = OutboxRow(event: OutboxEvent, createdAt: nat, processed: bool, retryCount: nat)

  /** The outbox table, and the row of every job ever added to the domain-events queue. */
  datatype Outbox = Outbox(rows: seq<OutboxRow>, queue: seq<nat>)

  predicate Eligible(row: OutboxRow) {
    !row.processed && row.retryCount < MAX_RETRIES
  }

  predicate EligibleAt(rows: seq<OutboxRow>, i: nat) {
    i < |rows| && Eligible(rows[i])
  }

  /** Distinct eligible rows, oldest first, none left out that is older than one taken. */
  predicate OldestFirst(rows: seq<OutboxRow>, batch: seq<nat>) {
    && Distinct(batch)
    && (forall k :: 0 <= k < |batch| ==> EligibleAt(rows, batch[k]))
    && (forall a, b :: 0 <= a < b < |batch| ==> rows[batch[a]].createdAt <= rows[batch[b]].createdAt)
    && (forall i, k :: 0 <= i < |rows| && Eligible(rows[i]) && i !in batch && 0 <= k < |batch| ==>
          rows[batch[k]].createdAt <= rows[i].createdAt)
  }

  predicate TakesAll(rows: seq<OutboxRow>, batch: seq<nat>) {
    forall i :: 0 <= i < |rows| && Eligible(rows[i]) ==> i in batch
  }

  /** What the query may return: the oldest eligible rows, ties in any order, up to the limit;
      fewer than the limit only if that is all there are. */
  predicate IsBatch(rows: seq<OutboxRow>, batch: seq<nat>) {
    OldestFirst(rows, batch) && |batch| <= BATCH_LIMIT && (|batch| < BATCH_LIMIT ==> TakesAll(rows, batch))
  }

  /** What queue and database answer for one event. A call that rejects, `markFailedAttempt`
      included, may still have taken effect. */
  datatype Attempt = Published | AddRejected(enqueued: bool) | MarkRejected(stored: bool)
  datatype Count = Counted | CountRejected(stored: bool)
  datatype Outcome = Outcome(attempt: Attempt, count: Count)

  /** Whether the failure, if there is one, is counted. */
  predicate Increments(o: Outcome) {
    o.count.Counted? || o.count.stored
  }

  /** Whether the loop goes on to the next event. */
  predicate GoesOn(o: Outcome) {
    o.attempt.Published? || o.count.Counted?
  }

  function Attempted(row: OutboxRow, o: Outcome): OutboxRow {
    match o.attempt
    case Published => row.(processed := true)
    case AddRejected(_) => if Increments(o) then row.(retryCount := row.retryCount + 1) else row
    case MarkRejected(stored) =>
      var marked := row.(processed := row.processed || stored);
      if Increments(o) then marked.(retryCount := row.retryCount + 1) else marked
  }

  function Enqueues(o: Outcome): bool {
    o.attempt.AddRejected? ==> o.attempt.enqueued
  }

  /** One event of the batch, and whether the loop goes on. */
  function PublishOne(box: Outbox, i: nat, o: Outcome): (Outbox, bool)
    requires i < |box.rows|
  {
    (Outbox(box.rows[i := Attempted(box.rows[i], o)], if Enqueues(o) then box.queue + [i] else box.queue),
     GoesOn(o))
  }

  /** In full: what each way of failing leaves behind. */
  lemma AttemptLeaves(box: Outbox, i: nat, o: Outcome)
    requires i < |box.rows|
    ensures var (after, goesOn) := PublishOne(box, i, o);
      var was, row := box.rows[i], after.rows[i];
      && |after.rows| == |box.rows| && (forall j :: 0 <= j < |box.rows| && j != i ==> after.rows[j] == box.rows[j])
      && row.event == was.event && row.createdAt == was.createdAt
      && after.queue == box.queue + (if o.attempt == AddRejected(false) then [] else [i])
      && (o.attempt == Published ==> goesOn && row.processed && row.retryCount == was.retryCount)
      && (o.attempt != Published ==>
            && goesOn == (o.count == Counted)
            && row.processed == (was.processed || o.attempt == MarkRejected(true))
            && row.retryCount == was.retryCount + if o.count == CountRejected(false) then 0 else 1)
  {
  }

  /** In full: the rows a pass may take. */
  lemma BatchIff(rows: seq<OutboxRow>, batch: seq<nat>)
    ensures IsBatch(rows, batch) <==>
      && |batch| <= 50
      && (forall k :: 0 <= k < |batch| ==>
            batch[k] < |rows| && !rows[batch[k]].processed && rows[batch[k]].retryCount < 5)
      && (forall a, b :: 0 <= a < b < |batch| ==>
            batch[a] != batch[b] && rows[batch[a]].createdAt <= rows[batch[b]].createdAt)
      && (forall i :: 0 <= i < |rows| && !rows[i].processed && rows[i].retryCount < 5 && i !in batch ==>
            |batch| == 50 && forall k :: 0 <= k < |batch| ==> rows[batch[k]].createdAt <= rows[i].createdAt)
  {
  }

  type Oracle = nat -> Outcome

  /** The loop from the k-th event on; false when an exception ended it early. */
  function PublishFrom(box: Outbox, batch: seq<nat>, k: nat, oracle: Oracle): (r: (Outbox, bool))
    requires k <= |batch| && forall a :: 0 <= a < |batch| ==> batch[a] < |box.rows|
    ensures |r.0.rows| == |box.rows|
    decreases |batch| - k
  {
    if k == |batch| then (box, true)
    else
      var (next, goesOn) := PublishOne(box, batch[k], oracle(k));
      if goesOn then PublishFrom(next, batch, k + 1, oracle) else (next, false)
  }

  /** The rows enqueued by the first `n` attempts of a batch, in the order of the attempts. */
  function Added(batch: seq<nat>, oracle: Oracle, n: nat): seq<nat>
    requires n <= |batch|
  {
    if n == 0 then []
    else Added(batch, oracle, n - 1) + if oracle(n - 1).attempt == AddRejected(false) then [] else [batch[n - 1]]
  }

  predicate Before(batch: seq<nat>, n: nat, i: nat)
    requires n <= |batch|
  {
    i in batch[..n]
  }

  ghost predicate Tried(rows: seq<OutboxRow>, batch: seq<nat>, oracle: Oracle, n: nat, now: seq<OutboxRow>)
    requires n <= |batch|
  {
    forall a :: 0 <= a < n && batch[a] < |rows| <= |now| ==> now[batch[a]] == Attempted(rows[batch[a]], oracle(a))
  }

  ghost predicate OthersUntried(rows: seq<OutboxRow>, batch: seq<nat>, n: nat, now: seq<OutboxRow>)
    requires n <= |batch|
  {
    forall i :: 0 <= i < |rows| <= |now| && !Before(batch, n, i) ==> now[i] == rows[i]
  }

  /** A pass that has attempted `n` events of the batch: each of them once, in order, and no other. */
  ghost predicate Passed(box: Outbox, batch: seq<nat>, oracle: Oracle, n: nat, now: Outbox)
    requires n <= |batch|
  {
    && |now.rows| == |box.rows| && now.queue == box.queue + Added(batch, oracle, n)
    && Tried(box.rows, batch, oracle, n, now.rows)
    && OthersUntried(box.rows, batch, n, now.rows)
  }

  lemma TriedOneMore(rows: seq<OutboxRow>, batch: seq<nat>, oracle: Oracle, n: nat, now: seq<OutboxRow>, row: OutboxRow)
    requires Distinct(batch) && n < |batch| && batch[n] < |rows| == |now| && Tried(rows, batch, oracle, n, now)
    requires row == Attempted(rows[batch[n]], oracle(n))
    ensures Tried(rows, batch, oracle, n + 1, now[batch[n] := row])
  {
    hide Attempted;
  }

  lemma OthersOneMore(rows: seq<OutboxRow>, batch: seq<nat>, n: nat, now: seq<OutboxRow>, row: OutboxRow)
    requires Distinct(batch) && n < |batch| && batch[n] < |rows| == |now| && OthersUntried(rows, batch, n, now)
    ensures now[batch[n]] == rows[batch[n]]
    ensures OthersUntried(rows, batch, n + 1, now[batch[n] := row])
  {
    assert batch[n] !in batch[..n];
    assert !Before(batch, n, batch[n]);
    assert batch[..n + 1] == batch[..n] + [batch[n]];
    assert forall i :: !Before(batch, n + 1, i) ==> !Before(batch, n, i) && i != batch[n];
    hide Distinct, Before;
  }

  lemma PassedOneMore(box: Outbox, batch: seq<nat>, oracle: Oracle, n: nat, now: Outbox)
    requires Distinct(batch) && n < |batch| && batch[n] < |box.rows| && Passed(box, batch, oracle, n, now)
    ensures Passed(box, batch, oracle, n + 1, PublishOne(now, batch[n], oracle(n)).0)
  {
    hide Tried, OthersUntried, Attempted, GoesOn, Distinct;
    var row := Attempted(now.rows[batch[n]], oracle(n));
    OthersOneMore(box.rows, batch, n, now.rows, row);
    TriedOneMore(box.rows, batch, oracle, n, now.rows, row);
  }

  lemma {:induction false} PassInOrder(box: Outbox, batch: seq<nat>, k: nat, oracle: Oracle, now: Outbox)
    returns (n: nat)
    requires Distinct(batch) && k <= |batch| && (forall a :: 0 <= a < |batch| ==> batch[a] < |box.rows|)
    requires |now.rows| == |box.rows| && Passed(box, batch, oracle, k, now)
    ensures k <= n <= |batch|
    ensures Passed(box, batch, oracle, n, PublishFrom(now, batch, k, oracle).0)
    ensures forall a :: k <= a < n - 1 ==> GoesOn(oracle(a))
    ensures if PublishFrom(now, batch, k, oracle).1 then n == |batch| && (n > k ==> GoesOn(oracle(n - 1)))
            else n > k && !GoesOn(oracle(n - 1))
    decreases |batch| - k
  {
    hide Passed, Distinct, GoesOn, Attempted, Enqueues;
    if k == |batch| {
      n := k;
    } else {
      var next := PublishOne(now, batch[k], oracle(k)).0;
      PassedOneMore(box, batch, oracle, k, now);
      if GoesOn(oracle(k)) {
        n := PassInOrder(box, batch, k + 1, oracle, next);
      } else {
        n := k + 1;
      }
    }
  }

  lemma NothingPassed(box: Outbox, batch: seq<nat>, oracle: Oracle)
    requires IsBatch(box.rows, batch)
    ensures Distinct(batch) && Passed(box, batch, oracle, 0, box)
  {
  }

  /** A pass attempts its events in order and stops early exactly after the first failure that was
      not counted; it ends well if and only if there was none. */
  lemma WholePass(box: Outbox, batch: seq<nat>, oracle: Oracle) returns (n: nat)
    requires IsBatch(box.rows, batch)
    ensures n <= |batch|
    ensures forall a :: 0 <= a < |batch| ==> batch[a] < |box.rows|
    ensures var (now, endedWell) := PublishFrom(box, batch, 0, oracle);
      && Passed(box, batch, oracle, n, now)
      && (endedWell <==> forall a :: 0 <= a < |batch| ==> GoesOn(oracle(a)))
      && (if endedWell then n == |batch| else n >= 1 && !GoesOn(oracle(n - 1)))
    ensures forall a :: 0 <= a < n - 1 ==> GoesOn(oracle(a))
  {
    BatchInRange(box.rows, batch);
    NothingPassed(box, batch, oracle);
    hide Passed, OldestFirst, TakesAll, PublishFrom, GoesOn;
    n := PassInOrder(box, batch, 0, oracle, box);
  }

  // ---- The classes ----

  lemma {:induction false} OldestExists(rows: seq<OutboxRow>, ids: set<nat>) returns (i: nat)
    requires ids != {} && forall j :: j in ids ==> j < |rows|
    ensures i in ids && forall j :: j in ids ==> rows[i].createdAt <= rows[j].createdAt
    decreases |ids|
  {
    i :| i in ids;
    if ids == {i} {
    } else {
      var j := OldestExists(rows, ids - {i});
      i := if rows[j].createdAt < rows[i].createdAt then j else i;
    }
  }

  lemma OldestFirstSnoc(rows: seq<OutboxRow>, taken: seq<nat>, i: nat)
    requires OldestFirst(rows, taken) && EligibleAt(rows, i) && i !in taken
    requires forall j :: 0 <= j < |rows| && Eligible(rows[j]) && j !in taken ==> rows[i].createdAt <= rows[j].createdAt
    ensures OldestFirst(rows, taken + [i])
  {
  }

  /** A legal answer to the query always exists: take the oldest row left, up to the limit. */
  lemma {:induction false} BatchExists(rows: seq<OutboxRow>, taken: seq<nat>) returns (batch: seq<nat>)
    requires OldestFirst(rows, taken) && |taken| <= BATCH_LIMIT
    ensures IsBatch(rows, batch)
    decreases BATCH_LIMIT - |taken|
  {
    var left := set i | 0 <= i < |rows| && Eligible(rows[i]) && i !in taken;
    if |taken| == BATCH_LIMIT || left == {} {
      batch := taken;
      assert forall i :: 0 <= i < |rows| && Eligible(rows[i]) && i !in taken ==> i in left;
    } else {
      var i := OldestExists(rows, left);
      assert forall j :: 0 <= j < |rows| && Eligible(rows[j]) && j !in taken ==> j in left;
      OldestFirstSnoc(rows, taken, i);
      batch := BatchExists(rows, taken + [i]);
    }
  }

  class OutboxService {
    var rows: seq<OutboxRow>

    constructor (rows: seq<OutboxRow>)
      ensures this.rows == rows
    {
      this.rows := rows;
    }

    /** The oldest eligible row that is not in the batch yet. */
    method OldestLeft(batch: seq<nat>) returns (r: Option<nat>)
      ensures r.None? ==> TakesAll(rows, batch)
      ensures r.Some? ==> EligibleAt(rows, r.value) && r.value !in batch
      ensures r.Some? ==> forall j :: 0 <= j < |rows| && Eligible(rows[j]) && j !in batch ==>
        rows[r.value].createdAt <= rows[j].createdAt
    {
      r := None;
      for i := 0 to |rows|
        invariant r.None? ==> forall j :: 0 <= j < i && Eligible(rows[j]) ==> j in batch
        invariant r.Some? ==> r.value < i && Eligible(rows[r.value]) && r.value !in batch
        invariant r.Some? ==> forall j :: 0 <= j < i && Eligible(rows[j]) && j !in batch ==>
          rows[r.value].createdAt <= rows[j].createdAt
      {
        if Eligible(rows[i]) && i !in batch && (r.None? || rows[i].createdAt < rows[r.value].createdAt) {
          r := Some(i);
        }
      }
    }

    method FindUnprocessed() returns (batch: seq<nat>)
      ensures IsBatch(rows, batch)
    {
      batch := [];
      while |batch| < BATCH_LIMIT
        invariant OldestFirst(rows, batch) && |batch| <= BATCH_LIMIT
      {
        var next := OldestLeft(batch);
        if next.None? {
          return;
        }
        OldestFirstSnoc(rows, batch, next.value);
        batch := batch + [next.value];
      }
    }

    method MarkProcessed(i: nat)
      modifies this
      ensures rows == if i < |old(rows)| then old(rows)[i := old(rows)[i].(processed := true)] else old(rows)
    {
      if i < |rows| {
        rows := rows[i := rows[i].(processed := true)];
      }
    }

    method MarkFailedAttempt(i: nat)
      modifies this
      ensures rows
           == if i < |old(rows)| then old(rows)[i := old(rows)[i].(retryCount := old(rows)[i].retryCount + 1)]
              else old(rows)
    {
      if i < |rows| {
        rows := rows[i := rows[i].(retryCount := rows[i].retryCount + 1)];
      }
    }
  }

  class OutboxPublisher {
    const service: OutboxService
    var queue: seq<nat>
    var processing: bool

    constructor (service: OutboxService)
      ensures this.service == service && queue == [] && !processing
    {
      this.service := service;
      queue, processing := [], false;
    }

    ghost function Box(): Outbox
      reads this, service
    {
      Outbox(service.rows, queue)
    }

    /** The body of the loop: add, then mark; any rejection is caught and counted. */
    method PublishEvent(i: nat, o: Outcome) returns (threw: bool)
      requires i < |service.rows|
      modifies this`queue, service
      ensures (Box(), !threw) == PublishOne(old(Box()), i, o)
    {
      threw := false;
      var failed := false;
      // the job is added to the domain-events queue
      if Enqueues(o) {
        queue := queue + [i];
      }
      failed := o.attempt.AddRejected?;
      if !failed {
        // only then is the row marked
        if o.attempt.Published? || o.attempt.stored {
          service.MarkProcessed(i);
        }
        failed := o.attempt.MarkRejected?;
      }
      if failed {
        if Increments(o) {
          service.MarkFailedAttempt(i);
        }
        threw := o.count.CountRejected?;
      }
      assert service.rows == old(service.rows)[i := Attempted(old(service.rows)[i], o)];
    }

    /** One tick of the scheduler. A tick during another pass does nothing; otherwise one batch
        is published, and however the pass ends the flag is cleared. */
    method PublishPendingEvents(queryFails: bool, oracle: Oracle) returns (threw: bool)
      modifies this, service
      ensures old(processing) || queryFails ==> Box() == old(Box())
      ensures old(processing) ==> processing && !threw
      ensures !old(processing) ==> !processing && (queryFails ==> threw)
      ensures !old(processing) && !queryFails ==>
        exists batch ::
          IsBatch(old(service.rows), batch) && (Box(), !threw) == PublishFrom(old(Box()), batch, 0, oracle)
    {
      if processing {
        return false;
      }
      processing := true;
      if queryFails {
        processing := false;
        return true;
      }
      var batch := service.FindUnprocessed();
      ghost var start := Box();
      hide IsBatch, PublishOne, Attempted, Enqueues, GoesOn;
      assert forall a :: 0 <= a < |batch| ==> batch[a] < |start.rows| by {
        BatchInRange(start.rows, batch);
      }
      threw := false;
      var k := 0;
      while k < |batch| && !threw
        invariant k <= |batch| && |service.rows| == |start.rows|
        invariant PublishFrom(start, batch, 0, oracle)
               == if threw then (Box(), false) else PublishFrom(Box(), batch, k, oracle)
        decreases |batch| - k, !threw
      {
        threw := PublishEvent(batch[k], oracle(k));
        if !threw {
          k := k + 1;
        }
      }
      processing := false;
    }
  }

  lemma BatchInRange(rows: seq<OutboxRow>, batch: seq<nat>)
    requires IsBatch(rows, batch)
    ensures forall a :: 0 <= a < |batch| ==> batch[a] < |rows|
  {
    assert forall k :: 0 <= k < |batch| ==> EligibleAt(rows, batch[k]);
  }
}
