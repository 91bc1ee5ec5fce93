/** How long events can wait in the outbox. */
module OutboxProgress {
  import opened Rows
  import opened Outbox
  import opened OutboxDelivery

  // ---- Attempts left, over all rows or over the rows ahead of one ----

  datatype Scope = All | Ahead(of: nat, createdAt: nat)

  /** In scope: every row, or those a query may put before row `of`. */
  predicate InScope(scope: Scope, j: nat, row: OutboxRow) {
    scope.All? || (j != scope.of && row.createdAt <= scope.createdAt)
  }

  function Left(scope: Scope, j: nat, row: OutboxRow): nat {
    if InScope(scope, j, row) && Eligible(row) then MAX_RETRIES - row.retryCount else 0
  }

  function Measure(scope: Scope, rows: seq<OutboxRow>): nat {
    if rows == [] then 0
    else Measure(scope, rows[..|rows| - 1]) + Left(scope, |rows| - 1, rows[|rows| - 1])
  }

  function EligibleIn(scope: Scope, rows: seq<OutboxRow>): set<nat> {
    set j | 0 <= j < |rows| && InScope(scope, j, rows[j]) && Eligible(rows[j])
  }

  lemma {:induction false} MeasureUpdate(scope: Scope, rows: seq<OutboxRow>, j: nat, row: OutboxRow)
    requires j < |rows|
    ensures Measure(scope, rows[j := row]) == Measure(scope, rows) - Left(scope, j, rows[j]) + Left(scope, j, row)
  {
    var n := |rows| - 1;
    if j < n {
      MeasureUpdate(scope, rows[..n], j, row);
      assert rows[j := row][..n] == rows[..n][j := row];
    } else {
      assert rows[j := row][..n] == rows[..n];
    }
  }

  lemma {:induction false} MeasureBound(scope: Scope, rows: seq<OutboxRow>)
    ensures Measure(scope, rows) <= MAX_RETRIES * |EligibleIn(scope, rows)|
  {
    if rows == [] {
      assert EligibleIn(scope, rows) == {};
    } else {
      var n := |rows| - 1;
      var before := EligibleIn(scope, rows[..n]);
      MeasureBound(scope, rows[..n]);
      if InScope(scope, n, rows[n]) && Eligible(rows[n]) {
        assert EligibleIn(scope, rows) == before + {n};
      } else {
        assert EligibleIn(scope, rows) == before;
      }
    }
  }

  /** Every counted attempt in scope uses up at least one unit. */
  lemma {:induction false} BatchUsesUp(scope: Scope, box: Outbox, batch: seq<nat>, k: nat, oracle: Oracle)
    requires NeverEnds(oracle) && Remaining(box.rows, batch, k)
    requires forall a :: k <= a < |batch| ==> InScope(scope, batch[a], box.rows[batch[a]])
    ensures var rows := PublishFrom(box, batch, k, oracle).0.rows;
      Measure(scope, rows) + (|batch| - k) <= Measure(scope, box.rows)
    decreases |batch| - k
  {
    if k == |batch| {
    } else {
      var o, i := oracle(k), batch[k];
      assert GoesOn(o);
      var next := PublishOne(box, i, o).0;
      RemainingNext(box, batch, k, o);
      MeasureUpdate(scope, box.rows, i, Attempted(box.rows[i], o));
      forall a | k + 1 <= a < |batch|
        ensures InScope(scope, batch[a], next.rows[batch[a]])
      {
        assert batch[a] != i;
      }
      hide Remaining, Measure;
      BatchUsesUp(scope, next, batch, k + 1, oracle);
    }
  }

  /** Rows not in the batch stay as they are; rows in it lose eligibility or an attempt, and
      keep their age. */
  lemma {:induction false} BatchEffect(box: Outbox, batch: seq<nat>, k: nat, oracle: Oracle, j: nat)
    requires NeverEnds(oracle) && Remaining(box.rows, batch, k) && j < |box.rows|
    ensures var row := PublishFrom(box, batch, k, oracle).0.rows[j];
      && row.createdAt == box.rows[j].createdAt
      && (j !in batch[k..] ==> row == box.rows[j])
      && (j in batch[k..] ==> !Eligible(row) || row.retryCount == box.rows[j].retryCount + 1)
    decreases |batch| - k
  {
    if k == |batch| {
    } else {
      var o, i := oracle(k), batch[k];
      assert GoesOn(o);
      RemainingNext(box, batch, k, o);
      assert batch[k..] == [i] + batch[k + 1..];
      assert i !in batch[k + 1..];
      BatchEffect(PublishOne(box, i, o).0, batch, k + 1, oracle, j);
    }
  }

  // ---- Draining ----

  lemma {:induction false} SubsetSmaller<T>(a: set<T>, b: set<T>)
    requires a <= b
    ensures |a| <= |b|
  {
    if a == {} {
    } else {
      var x :| x in a;
      SubsetSmaller(a - {x}, b - {x});
    }
  }

  function Members(batch: seq<nat>): set<nat> {
    set x | x in batch
  }

  lemma {:induction false} DistinctSize(batch: seq<nat>)
    requires Distinct(batch)
    ensures |Members(batch)| == |batch|
  {
    if batch == [] {
    } else {
      var init, last := batch[..|batch| - 1], batch[|batch| - 1];
      DistinctSize(init);
      MembersSnoc(init, last);
      assert batch == init + [last];
      assert last !in Members(init);
    }
  }

  lemma MembersSnoc(init: seq<nat>, last: nat)
    ensures Members(init + [last]) == Members(init) + {last}
  {
  }

  predicate FewLeft(rows: seq<OutboxRow>, r: nat) {
    forall j :: 0 <= j < |rows| ==> Left(All, j, rows[j]) <= r
  }

  lemma PassEffect(box: Outbox, pass: Pass, j: nat)
    requires LegalPass(box, pass) && NeverEnds(pass.oracle) && j < |box.rows|
    ensures var rows := AfterPass(box, pass).rows;
      && |rows| == |box.rows| && rows[j].createdAt == box.rows[j].createdAt
      && (j !in pass.batch ==> rows[j] == box.rows[j])
      && (j in pass.batch ==> !Eligible(rows[j]) || rows[j].retryCount == box.rows[j].retryCount + 1)
      && (Eligible(rows[j]) ==> Eligible(box.rows[j]))
  {
    BatchRemaining(box.rows, pass.batch);
    BatchEffect(box, pass.batch, 0, pass.oracle, j);
    assert pass.batch[0..] == pass.batch;
    hide IsBatch;
    if j in pass.batch {
      var k :| 0 <= k < |pass.batch| && pass.batch[k] == j;
      assert EligibleAt(box.rows, pass.batch[k]);
    }
  }

  /** With fewer than 50 eligible rows every pass takes them all, so each loses an attempt. */
  lemma SmallPass(box: Outbox, pass: Pass, r: nat)
    requires LegalPass(box, pass) && NeverEnds(pass.oracle)
    requires |EligibleIn(All, box.rows)| < BATCH_LIMIT && FewLeft(box.rows, r) && r > 0
    ensures var rows := AfterPass(box, pass).rows;
      |EligibleIn(All, rows)| < BATCH_LIMIT && FewLeft(rows, r - 1)
  {
    var rows := AfterPass(box, pass).rows;
    var taken := Members(pass.batch);
    BatchRemaining(box.rows, pass.batch);
    assert taken <= EligibleIn(All, box.rows) by {
      forall x | x in pass.batch
        ensures x in EligibleIn(All, box.rows)
      {
        var k :| 0 <= k < |pass.batch| && pass.batch[k] == x;
        assert EligibleAt(box.rows, pass.batch[k]);
      }
    }
    DistinctSize(pass.batch);
    SubsetSmaller(taken, EligibleIn(All, box.rows));
    assert TakesAll(box.rows, pass.batch);
    forall j | 0 <= j < |box.rows|
      ensures Left(All, j, rows[j]) <= r - 1
      ensures j in EligibleIn(All, rows) ==> j in EligibleIn(All, box.rows)
    {
      PassEffect(box, pass, j);
      assert Left(All, j, box.rows[j]) <= r;
    }
    SameRowCount(box, pass);
    SubsetSmaller(EligibleIn(All, rows), EligibleIn(All, box.rows));
  }

  lemma SameRowCount(box: Outbox, pass: Pass)
    requires LegalPass(box, pass)
    ensures |AfterPass(box, pass).rows| == |box.rows|
  {
    BatchRemaining(box.rows, pass.batch);
  }

  /** No row arrives and no pass ends early. */
  ghost predicate Undisturbed(rounds: seq<Round>) {
    forall r :: 0 <= r < |rounds| ==> rounds[r].arrivals == [] && NeverEnds(rounds[r].pass.oracle)
  }

  lemma UndisturbedRound(box: Outbox, rounds: seq<Round>)
    requires Undisturbed(rounds) && rounds != []
    ensures Undisturbed(rounds[1..]) && NeverEnds(rounds[0].pass.oracle)
    ensures LegalPass(box, rounds[0].pass) ==> AfterRound(box, rounds[0]) == AfterPass(box, rounds[0].pass)
  {
    assert forall r :: 0 <= r < |rounds[1..]| ==> rounds[1..][r] == rounds[r + 1];
    if LegalPass(box, rounds[0].pass) {
      var after := AfterPass(box, rounds[0].pass);
      hide AfterPass;
      assert rounds[0].arrivals == [] && after.rows + [] == after.rows;
    }
  }

  lemma {:induction false} SmallDrains(box: Outbox, rounds: seq<Round>, r: nat)
    requires |EligibleIn(All, box.rows)| < BATCH_LIMIT && FewLeft(box.rows, r) && |rounds| >= r && Undisturbed(rounds)
    ensures AfterRounds(box, rounds).Some? ==> FewLeft(AfterRounds(box, rounds).value.rows, 0)
    decreases |rounds|
  {
    hide EligibleIn, FewLeft, LegalPass, Undisturbed, AfterRound;
    if r == 0 {
      NothingLeftStays(box, rounds);
    } else if LegalPass(box, rounds[0].pass) {
      UndisturbedRound(box, rounds);
      SmallPass(box, rounds[0].pass, r);
      SmallDrains(AfterRound(box, rounds[0]), rounds[1..], r - 1);
    }
  }

  lemma {:induction false} NothingLeftStays(box: Outbox, rounds: seq<Round>)
    requires FewLeft(box.rows, 0) && Undisturbed(rounds)
    ensures AfterRounds(box, rounds).Some? ==> FewLeft(AfterRounds(box, rounds).value.rows, 0)
    decreases |rounds|
  {
    hide Undisturbed, AfterRound;
    if rounds == [] {
    } else if LegalPass(box, rounds[0].pass) {
      UndisturbedRound(box, rounds);
      var rows := AfterPass(box, rounds[0].pass).rows;
      SameRowCount(box, rounds[0].pass);
      forall j | 0 <= j < |rows|
        ensures Left(All, j, rows[j]) <= 0
      {
        PassEffect(box, rounds[0].pass, j);
        assert Left(All, j, box.rows[j]) <= 0;
      }
      hide LegalPass, AfterPass;
      NothingLeftStays(AfterRound(box, rounds[0]), rounds[1..]);
    }
  }

  lemma {:induction false} MeasureDrains(box: Outbox, rounds: seq<Round>)
    requires |rounds| >= Measure(All, box.rows) / BATCH_LIMIT + MAX_RETRIES && Undisturbed(rounds)
    ensures AfterRounds(box, rounds).Some? ==> FewLeft(AfterRounds(box, rounds).value.rows, 0)
    decreases |rounds|
  {
    hide Measure, Undisturbed, AfterRound;
    if LegalPass(box, rounds[0].pass) {
      UndisturbedRound(box, rounds);
      var pass := rounds[0].pass;
      if |pass.batch| == BATCH_LIMIT {
        BatchRemaining(box.rows, pass.batch);
        BatchUsesUp(All, box, pass.batch, 0, pass.oracle);
        hide LegalPass;
        MeasureDrains(AfterRound(box, rounds[0]), rounds[1..]);
      } else {
        TakenAreAll(box, pass);
        hide LegalPass;
        SmallDrains(box, rounds, MAX_RETRIES);
      }
    }
  }

  lemma TakenAreAll(box: Outbox, pass: Pass)
    requires LegalPass(box, pass) && |pass.batch| < BATCH_LIMIT
    ensures |EligibleIn(All, box.rows)| < BATCH_LIMIT
  {
    DistinctSize(pass.batch);
    SubsetSmaller(EligibleIn(All, box.rows), Members(pass.batch));
  }

  /** Draining: with no arrivals, n eligible rows are all processed or abandoned after at most
      n / 10 + 5 passes, whatever fails, as long as no pass ends early. */
  lemma OutboxDrains(box: Outbox, rounds: seq<Round>)
    requires |rounds| >= |EligibleIn(All, box.rows)| / 10 + 5 && Undisturbed(rounds)
    ensures AfterRounds(box, rounds).Some? ==> EligibleIn(All, AfterRounds(box, rounds).value.rows) == {}
  {
    hide Undisturbed;
    MeasureBound(All, box.rows);
    MeasureDrains(box, rounds);
    if AfterRounds(box, rounds).Some? {
      var rows := AfterRounds(box, rounds).value.rows;
      hide AfterRounds;
      assert forall j :: 0 <= j < |rows| ==> Left(All, j, rows[j]) <= 0;
    }
  }

  // ---- No starvation ----

  /** Whether row `i` is in the batch of one of the rounds; true also when a round is not legal. */
  ghost predicate Reached(box: Outbox, rounds: seq<Round>, i: nat)
    decreases |rounds|
  {
    rounds != []
    && (LegalPass(box, rounds[0].pass) ==>
          i in rounds[0].pass.batch || Reached(AfterRound(box, rounds[0]), rounds[1..], i))
  }

  /** Whatever arrives is younger, and no pass ends early. */
  ghost predicate Later(rounds: seq<Round>, createdAt: nat) {
    && (forall r, a :: 0 <= r < |rounds| && 0 <= a < |rounds[r].arrivals| ==>
          createdAt < rounds[r].arrivals[a].createdAt)
    && (forall r :: 0 <= r < |rounds| ==> NeverEnds(rounds[r].pass.oracle))
  }

  lemma {:induction false} MeasureLater(scope: Scope, rows: seq<OutboxRow>, more: seq<OutboxRow>)
    requires scope.Ahead? && forall a :: 0 <= a < |more| ==> scope.createdAt < more[a].createdAt
    ensures Measure(scope, rows + more) == Measure(scope, rows)
  {
    if more == [] {
      assert rows + more == rows;
    } else {
      var n := |more| - 1;
      MeasureLater(scope, rows, more[..n]);
      assert (rows + more)[..|rows| + n] == rows + more[..n];
    }
  }

  /** A full batch that skips row `i` consists of rows ahead of it. */
  lemma SkippedPass(box: Outbox, pass: Pass, i: nat)
    requires LegalPass(box, pass) && NeverEnds(pass.oracle) && EligibleAt(box.rows, i) && i !in pass.batch
    ensures var scope := Ahead(i, box.rows[i].createdAt);
      && Measure(scope, AfterPass(box, pass).rows) + BATCH_LIMIT <= Measure(scope, box.rows)
      && EligibleAt(AfterPass(box, pass).rows, i)
      && AfterPass(box, pass).rows[i].createdAt == box.rows[i].createdAt
  {
    var scope := Ahead(i, box.rows[i].createdAt);
    BatchRemaining(box.rows, pass.batch);
    PassEffect(box, pass, i);
    SameRowCount(box, pass);
    forall a | 0 <= a < |pass.batch|
      ensures InScope(scope, pass.batch[a], box.rows[pass.batch[a]])
    {
      assert pass.batch[a] in pass.batch;
    }
    hide Measure;
    BatchUsesUp(scope, box, pass.batch, 0, pass.oracle);
  }

  lemma {:induction false} MeasureReaches(box: Outbox, rounds: seq<Round>, i: nat)
    requires EligibleAt(box.rows, i) && Later(rounds, box.rows[i].createdAt)
    requires |rounds| >= Measure(Ahead(i, box.rows[i].createdAt), box.rows) / BATCH_LIMIT + 1
    ensures Reached(box, rounds, i)
    decreases |rounds|
  {
    hide Measure;
    if LegalPass(box, rounds[0].pass) && i !in rounds[0].pass.batch {
      var scope := Ahead(i, box.rows[i].createdAt);
      var after := AfterPass(box, rounds[0].pass);
      SkippedPass(box, rounds[0].pass, i);
      MeasureLater(scope, after.rows, rounds[0].arrivals);
      hide LegalPass;
      forall r, a | 0 <= r < |rounds[1..]| && 0 <= a < |rounds[1..][r].arrivals|
        ensures scope.createdAt < rounds[1..][r].arrivals[a].createdAt
      {
        assert rounds[1..][r] == rounds[r + 1];
      }
      MeasureReaches(AfterRound(box, rounds[0]), rounds[1..], i);
    }
  }

  /** No starvation: a row with m eligible rows that may be taken before it is attempted by pass
      m / 10 + 1, even when younger rows keep arriving. */
  lemma RowReached(box: Outbox, rounds: seq<Round>, i: nat)
    requires EligibleAt(box.rows, i) && Later(rounds, box.rows[i].createdAt)
    requires |rounds| >= |EligibleIn(Ahead(i, box.rows[i].createdAt), box.rows)| / 10 + 1
    ensures Reached(box, rounds, i)
  {
    MeasureBound(Ahead(i, box.rows[i].createdAt), box.rows);
    MeasureReaches(box, rounds, i);
  }
}
