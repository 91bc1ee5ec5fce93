/** Ticks of the scheduler that overlap: every await of the publisher is a point at which other
    ticks start and rows arrive. The flag keeps the passes apart. */
module PublisherTicks {
  import opened Rows
  import opened Outbox
  import opened OutboxDelivery

  /** Where a tick waits; `k` is the event of its batch that it is at. `enqueued` is history: whether
      the attempt that failed had added its job. */
  datatype Tick =
    | Querying
    | Adding(batch: seq<nat>, k: nat)
    | Marking(batch: seq<nat>, k: nat)
    | Counting(batch: seq<nat>, k: nat, enqueued: bool)
    | Ended

  /** `uncounted` is history: the row of every copy enqueued by an attempt that was not counted. */
  datatype State = State(box: Outbox, processing: bool, ticks: map<nat, Tick>, uncounted: seq<nat>)

  /** A tick fires, an awaited call of tick `p` settles, or a row is inserted. A call that
      rejects may have taken effect; one that does not reject has. */
  datatype Action =
    | Fire(p: nat)
    | QuerySettles(p: nat, rejected: bool, found: seq<nat>)
    | AddSettles(p: nat, rejected: bool, effect: bool)
    | MarkSettles(p: nat, rejected: bool, effect: bool)
    | CountSettles(p: nat, rejected: bool, effect: bool)
    | Insert(row: OutboxRow)

  predicate InProgress(tick: Tick) {
    !tick.Ended?
  }

  predicate AtEvent(s: State, batch: seq<nat>, k: nat) {
    k < |batch| && batch[k] < |s.box.rows|
  }

  predicate Enabled(s: State, a: Action) {
    match a
    case Fire(p) => p !in s.ticks
    case QuerySettles(p, rejected, found) =>
      p in s.ticks && s.ticks[p].Querying? && (rejected || IsBatch(s.box.rows, found))
    case AddSettles(p, rejected, effect) =>
      p in s.ticks && s.ticks[p].Adding? && AtEvent(s, s.ticks[p].batch, s.ticks[p].k) && (rejected || effect)
    case MarkSettles(p, rejected, effect) =>
      p in s.ticks && s.ticks[p].Marking? && AtEvent(s, s.ticks[p].batch, s.ticks[p].k) && (rejected || effect)
    case CountSettles(p, rejected, effect) =>
      p in s.ticks && s.ticks[p].Counting? && AtEvent(s, s.ticks[p].batch, s.ticks[p].k) && (rejected || effect)
    case Insert(row) => Fresh([row])
  }

  /** The pass goes on with event `k`, or ends and clears the flag. */
  function GoTo(s: State, p: nat, batch: seq<nat>, k: nat): State {
    if k < |batch| then s.(ticks := s.ticks[p := Adding(batch, k)]) else Leave(s, p)
  }

  function Leave(s: State, p: nat): State {
    s.(processing := false, ticks := s.ticks[p := Ended])
  }

  function Put(s: State, i: nat, row: OutboxRow): State
    requires i < |s.box.rows|
  {
    s.(box := Outbox(s.box.rows[i := row], s.box.queue))
  }

  function Added(box: Outbox, i: nat, effect: bool): Outbox {
    Outbox(box.rows, if effect then box.queue + [i] else box.queue)
  }

  function Marked(row: OutboxRow, effect: bool): OutboxRow {
    row.(processed := row.processed || effect)
  }

  function CountedOnce(row: OutboxRow, effect: bool): OutboxRow {
    if effect then row.(retryCount := row.retryCount + 1) else row
  }

  function Step(s: State, a: Action): State
    requires Enabled(s, a)
  {
    match a
    case Fire(p) =>
      if s.processing then s.(ticks := s.ticks[p := Ended])
      else s.(processing := true, ticks := s.ticks[p := Querying])
    case QuerySettles(p, rejected, found) => if rejected then Leave(s, p) else GoTo(s, p, found, 0)
    case AddSettles(p, rejected, effect) =>
      var (batch, k) := (s.ticks[p].batch, s.ticks[p].k);
      s.(box := Added(s.box, batch[k], effect),
         ticks := s.ticks[p := if rejected then Counting(batch, k, effect) else Marking(batch, k)])
    case MarkSettles(p, rejected, effect) =>
      var (batch, k) := (s.ticks[p].batch, s.ticks[p].k);
      var t := Put(s, batch[k], Marked(s.box.rows[batch[k]], effect));
      if rejected then t.(ticks := t.ticks[p := Counting(batch, k, true)]) else GoTo(t, p, batch, k + 1)
    case CountSettles(p, rejected, effect) =>
      var (batch, k) := (s.ticks[p].batch, s.ticks[p].k);
      var missed := !effect && s.ticks[p].enqueued;
      var t := Put(s, batch[k], CountedOnce(s.box.rows[batch[k]], effect)).(
        uncounted := if missed then s.uncounted + [batch[k]] else s.uncounted);
      if rejected then Leave(t, p) else GoTo(t, p, batch, k + 1)
    case Insert(row) => s.(box := Outbox(s.box.rows + [row], s.box.queue))
  }

  ghost function Continue(s: State, run: seq<Action>): Option<State> {
    if run == [] then Some(s)
    else
      var prior, a := Continue(s, run[..|run| - 1]), run[|run| - 1];
      if prior.Some? && Enabled(prior.value, a) then Some(Step(prior.value, a)) else None
  }

  // ---- The invariant ----

  /** The events a pass has still to handle are distinct and eligible. */
  ghost predicate TickOk(rows: seq<OutboxRow>, tick: Tick) {
    match tick
    case Adding(batch, k) => k < |batch| && Remaining(rows, batch, k)
    case Marking(batch, k) => k < |batch| && Remaining(rows, batch, k + 1)
    case Counting(batch, k, _) => k < |batch| && Remaining(rows, batch, k + 1)
    case _ => true
  }

  predicate Passing(ticks: map<nat, Tick>, p: nat) {
    p in ticks && InProgress(ticks[p])
  }

  ghost predicate OnePass(s: State) {
    && (forall p, q :: Passing(s.ticks, p) && Passing(s.ticks, q) ==> p == q)
    && (s.processing <==> exists p :: Passing(s.ticks, p))
  }

  ghost predicate Inv(s: State) {
    OnePass(s) && forall p :: p in s.ticks ==> TickOk(s.box.rows, s.ticks[p])
  }

  lemma RemainingPut(rows: seq<OutboxRow>, batch: seq<nat>, k: nat, row: OutboxRow)
    requires k < |batch| && Remaining(rows, batch, k + 1)
    ensures Remaining(rows[batch[k] := row], batch, k + 1)
  {
  }

  /** The pass of `p` moves on: the only one there was, and the only one there is. */
  lemma OnePassMoves(s: State, p: nat, tick: Tick, t: State)
    requires OnePass(s) && Passing(s.ticks, p) && t.ticks == s.ticks[p := tick]
    requires t.processing == InProgress(tick)
    ensures OnePass(t)
  {
    if InProgress(tick) {
      assert Passing(t.ticks, p);
    }
    forall q | q != p
      ensures !Passing(t.ticks, q)
    {
      assert Passing(t.ticks, q) ==> Passing(s.ticks, q);
    }
  }

  lemma OthersIdle(s: State, p: nat, rows: seq<OutboxRow>, q: nat)
    requires OnePass(s) && Passing(s.ticks, p) && q in s.ticks && q != p
    ensures TickOk(rows, s.ticks[q])
  {
    assert !Passing(s.ticks, q);
  }

  lemma SettledKeeps(s: State, p: nat, tick: Tick, t: State)
    requires Inv(s) && Passing(s.ticks, p) && t.ticks == s.ticks[p := tick]
    requires t.processing == InProgress(tick) && TickOk(t.box.rows, tick)
    ensures Inv(t)
  {
    hide TickOk, Passing, OnePass;
    OnePassMoves(s, p, tick, t);
    forall q | q in t.ticks
      ensures TickOk(t.box.rows, t.ticks[q])
    {
      if q != p {
        OthersIdle(s, p, t.box.rows, q);
      }
    }
  }

  lemma InsertKeeps(s: State, row: OutboxRow)
    requires Inv(s)
    ensures Inv(s.(box := Outbox(s.box.rows + [row], s.box.queue)))
  {
    hide OnePass, Distinct;
    var t := s.(box := Outbox(s.box.rows + [row], s.box.queue));
    assert OnePass(t) by { FlagIgnoresBox(s, t); }
    forall p | p in t.ticks
      ensures TickOk(t.box.rows, t.ticks[p])
    {
      assert TickOk(s.box.rows, s.ticks[p]);
    }
  }

  lemma FlagIgnoresBox(s: State, t: State)
    requires OnePass(s) && t.ticks == s.ticks && t.processing == s.processing
    ensures OnePass(t)
  {
  }

  lemma FireKeeps(s: State, p: nat)
    requires Inv(s) && p !in s.ticks
    ensures Inv(Step(s, Fire(p)))
  {
    var t := Step(s, Fire(p));
    if s.processing {
      var q :| Passing(s.ticks, q);
      assert Passing(t.ticks, q);
      assert forall r :: Passing(t.ticks, r) <==> Passing(s.ticks, r);
    } else {
      assert Passing(t.ticks, p);
      assert forall r :: Passing(t.ticks, r) ==> r == p || Passing(s.ticks, r);
    }
    hide Remaining;
    assert forall q :: q in t.ticks ==> TickOk(t.box.rows, t.ticks[q]);
  }

  lemma StepKeeps(s: State, a: Action)
    requires Inv(s) && Enabled(s, a)
    ensures Inv(Step(s, a))
  {
    match a
    case Fire(p) =>
      hide Inv, Step;
      FireKeeps(s, p);
    case Insert(row) =>
      hide Inv;
      InsertKeeps(s, row);
    case QuerySettles(p, rejected, found) =>
      var t := Step(s, a);
      if !rejected {
        BatchRemaining(s.box.rows, found);
      }
      hide IsBatch, OnePass;
      SettledKeeps(s, p, t.ticks[p], t);
    case AddSettles(p, _, _) =>
      var t := Step(s, a);
      assert TickOk(s.box.rows, s.ticks[p]);
      hide OnePass;
      SettledKeeps(s, p, t.ticks[p], t);
    case MarkSettles(p, _, effect) => AttemptKeeps(s, a, p);
    case CountSettles(p, _, effect) => AttemptKeeps(s, a, p);
  }

  lemma AttemptKeeps(s: State, a: Action, p: nat)
    requires Inv(s) && Enabled(s, a) && (a.MarkSettles? || a.CountSettles?) && a.p == p
    ensures Inv(Step(s, a))
  {
    var (batch, k) := (s.ticks[p].batch, s.ticks[p].k);
    var row := s.box.rows[batch[k]];
    assert TickOk(s.box.rows, s.ticks[p]);
    RemainingPut(s.box.rows, batch, k, if a.MarkSettles? then Marked(row, a.effect) else CountedOnce(row, a.effect));
    hide OnePass, Remaining;
    var t := Step(s, a);
    SettledKeeps(s, p, t.ticks[p], t);
  }

  lemma {:induction false} RunKeeps(s: State, run: seq<Action>)
    requires Inv(s)
    ensures Continue(s, run).Some? ==> Inv(Continue(s, run).value)
  {
    hide Inv, Step, Enabled;
    if run == [] {
    } else {
      var before := run[..|run| - 1];
      RunKeeps(s, before);
      if Continue(s, run).Some? {
        StepKeeps(Continue(s, before).value, run[|run| - 1]);
      }
    }
  }

  function Start(rows: seq<OutboxRow>): State {
    State(Outbox(rows, []), false, map[], [])
  }

  /** Overlapping ticks: however calls settle and rows arrive, at most one pass is in progress, the
      flag is set exactly while one is, and an event about to be added is still eligible: no
      other pass has dealt with it. */
  lemma PassesExclude(rows: seq<OutboxRow>, run: seq<Action>, p: nat, q: nat)
    ensures Continue(Start(rows), run).Some? ==>
      var s := Continue(Start(rows), run).value;
      && (Passing(s.ticks, p) && Passing(s.ticks, q) ==> p == q)
      && (Passing(s.ticks, p) ==> s.processing)
      && (s.processing ==> exists r :: Passing(s.ticks, r))
      && (p in s.ticks && s.ticks[p].Adding? ==>
            AtEvent(s, s.ticks[p].batch, s.ticks[p].k) && EligibleAt(s.box.rows, s.ticks[p].batch[s.ticks[p].k]))
  {
    RunKeeps(Start(rows), run);
    hide Continue;
    if Continue(Start(rows), run).Some? {
      var s := Continue(Start(rows), run).value;
      assert p in s.ticks ==> TickOk(s.box.rows, s.ticks[p]);
    }
  }

  // ---- The calls for one event ----

  function Calls(p: nat, o: Outcome): seq<Action> {
    var counts := [CountSettles(p, !GoesOn(o), Increments(o))];
    match o.attempt
    case Published => [AddSettles(p, false, true), MarkSettles(p, false, true)]
    case AddRejected(enqueued) => [AddSettles(p, true, enqueued)] + counts
    case MarkRejected(stored) => [AddSettles(p, false, true)] + ([MarkSettles(p, true, stored)] + counts)
  }

  lemma {:induction false} ContinueCons(s: State, a: Action, rest: seq<Action>)
    requires Enabled(s, a)
    ensures Continue(s, [a] + rest) == Continue(Step(s, a), rest)
  {
    hide Enabled, Step;
    if rest == [] {
      assert [a] + rest == [a] && [a][..0] == [];
    } else {
      ContinueCons(s, a, rest[..|rest| - 1]);
      assert ([a] + rest)[..|rest|] == [a] + rest[..|rest| - 1];
    }
  }

  lemma OneCall(s: State, a: Action)
    requires Enabled(s, a)
    ensures Continue(s, [a]) == Some(Step(s, a))
  {
    ContinueCons(s, a, []);
    assert [a] + [] == [a];
  }

  lemma CountCall(s: State, p: nat, batch: seq<nat>, k: nat, o: Outcome, enqueued: bool) returns (t: State)
    requires p in s.ticks && s.ticks[p] == Counting(batch, k, enqueued) && AtEvent(s, batch, k) && !o.attempt.Published?
    ensures Continue(s, [CountSettles(p, !GoesOn(o), Increments(o))]) == Some(t)
    ensures t.box == Put(s, batch[k], CountedOnce(s.box.rows[batch[k]], Increments(o))).box
    ensures p in t.ticks && t.ticks[p] == if GoesOn(o) && k + 1 < |batch| then Adding(batch, k + 1) else Ended
  {
    var a := CountSettles(p, !GoesOn(o), Increments(o));
    t := Step(s, a);
    OneCall(s, a);
  }

  predicate EventDone(s: State, p: nat, o: Outcome, t: State)
    requires p in s.ticks && s.ticks[p].Adding? && AtEvent(s, s.ticks[p].batch, s.ticks[p].k)
  {
    var batch, k := s.ticks[p].batch, s.ticks[p].k;
    && t.box == PublishOne(s.box, batch[k], o).0
    && p in t.ticks && t.ticks[p] == if GoesOn(o) && k + 1 < |batch| then Adding(batch, k + 1) else Ended
  }

  /** The calls for one event, made without interruption, do to the tables what `PublishOne` does;
      the pass then is at its next event exactly when the loop goes on. */
  lemma CallsAreAttempt(s: State, p: nat, o: Outcome) returns (t: State)
    requires p in s.ticks && s.ticks[p].Adding? && AtEvent(s, s.ticks[p].batch, s.ticks[p].k)
    ensures Continue(s, Calls(p, o)) == Some(t) && EventDone(s, p, o, t)
  {
    match o.attempt
    case Published => t := PublishCalls(s, p, o);
    case AddRejected(_) => t := AddRejectedCalls(s, p, o);
    case MarkRejected(_) => t := MarkRejectedCalls(s, p, o);
  }

  lemma PublishCalls(s: State, p: nat, o: Outcome) returns (t: State)
    requires p in s.ticks && s.ticks[p].Adding? && AtEvent(s, s.ticks[p].batch, s.ticks[p].k) && o.attempt.Published?
    ensures Continue(s, Calls(p, o)) == Some(t) && EventDone(s, p, o, t)
  {
    hide Continue;
    var add, mark := AddSettles(p, false, true), MarkSettles(p, false, true);
    var one := Step(s, add);
    t := Step(one, mark);
    OneCall(one, mark);
    ContinueCons(s, add, [mark]);
    assert Calls(p, o) == [add] + [mark];
  }

  lemma AddRejectedCalls(s: State, p: nat, o: Outcome) returns (t: State)
    requires p in s.ticks && s.ticks[p].Adding? && AtEvent(s, s.ticks[p].batch, s.ticks[p].k) && o.attempt.AddRejected?
    ensures Continue(s, Calls(p, o)) == Some(t) && EventDone(s, p, o, t)
  {
    hide Continue;
    var batch, k := s.ticks[p].batch, s.ticks[p].k;
    var add := AddSettles(p, true, o.attempt.enqueued);
    t := CountCall(Step(s, add), p, batch, k, o, o.attempt.enqueued);
    ContinueCons(s, add, [CountSettles(p, !GoesOn(o), Increments(o))]);
  }

  lemma MarkRejectedCalls(s: State, p: nat, o: Outcome) returns (t: State)
    requires p in s.ticks && s.ticks[p].Adding? && AtEvent(s, s.ticks[p].batch, s.ticks[p].k) && o.attempt.MarkRejected?
    ensures Continue(s, Calls(p, o)) == Some(t) && EventDone(s, p, o, t)
  {
    hide Continue;
    var batch, k := s.ticks[p].batch, s.ticks[p].k;
    var add, mark := AddSettles(p, false, true), MarkSettles(p, true, o.attempt.stored);
    var one := Step(s, add);
    var two := Step(one, mark);
    t := CountCall(two, p, batch, k, o, true);
    ContinueCons(one, mark, [CountSettles(p, !GoesOn(o), Increments(o))]);
    ContinueCons(s, add, [mark] + [CountSettles(p, !GoesOn(o), Increments(o))]);
    PutTwice(s.box.rows, batch[k], two.box.rows[batch[k]], t.box.rows[batch[k]]);
  }

  lemma PutTwice(rows: seq<OutboxRow>, i: nat, a: OutboxRow, b: OutboxRow)
    requires i < |rows|
    ensures rows[i := a][i := b] == rows[i := b]
  {
  }

  // ---- Delivery accounting under overlap ----

  /** The tick has added, or tried to add, a job of row `i` and not settled the attempt. */
  predicate PendingOn(tick: Tick, i: nat) {
    (tick.Marking? || tick.Counting?) && tick.k < |tick.batch| && tick.batch[tick.k] == i
  }

  predicate InFlight(tick: Tick) {
    tick.Marking? || (tick.Counting? && tick.enqueued)
  }

  /** The row as the attempt found it: without its copy and not yet processed. */
  function Before(t: Trail, inFlight: bool): Trail
    requires inFlight ==> t.copies >= 1
  {
    Trail(t.row.(processed := false), t.copies - if inFlight then 1 else 0)
  }

  ghost predicate AttemptOk(t: Trail, tick: Tick, uncounted: nat) {
    && (InFlight(tick) ==> t.copies >= 1)
    && (t.row.processed ==> tick.Counting? && tick.enqueued)
    && Eligible(Before(t, InFlight(tick)).row) && Accounted(Before(t, InFlight(tick)), uncounted)
  }

  function UncountedOf(s: State, i: nat): nat {
    multiset(s.uncounted)[i]
  }

  ghost predicate Idle(s: State, i: nat) {
    forall p :: p in s.ticks ==> !PendingOn(s.ticks[p], i)
  }

  ghost predicate RowOk(s: State, i: nat)
    requires i < |s.box.rows|
  {
    && (Idle(s, i) ==> Accounted(TrailOf(s.box, i), UncountedOf(s, i)))
    && (forall p :: p in s.ticks && PendingOn(s.ticks[p], i) ==>
          AttemptOk(TrailOf(s.box, i), s.ticks[p], UncountedOf(s, i)))
  }

  ghost predicate RowsOk(s: State) {
    && QueueKnown(s.box) && QueueKnown(Outbox(s.box.rows, s.uncounted))
    && forall i :: 0 <= i < |s.box.rows| ==> RowOk(s, i)
  }

  /** Tick `p` is the only one that can be in the middle of an attempt. */
  lemma OnlyPending(s: State, p: nat, q: nat, i: nat)
    requires OnePass(s) && Passing(s.ticks, p) && q in s.ticks && PendingOn(s.ticks[q], i)
    ensures q == p
  {
    assert Passing(s.ticks, q);
  }

  /** A row the step of `p` does not touch. */
  lemma UntouchedRow(s: State, t: State, p: nat, tick: Tick, i: nat)
    requires OnePass(s) && Passing(s.ticks, p) && t.ticks == s.ticks[p := tick]
    requires i < |s.box.rows| == |t.box.rows| && RowOk(s, i)
    requires TrailOf(t.box, i) == TrailOf(s.box, i) && UncountedOf(t, i) == UncountedOf(s, i)
    requires !PendingOn(s.ticks[p], i) && !PendingOn(tick, i)
    ensures RowOk(t, i)
  {
    hide Accounted, AttemptOk, PendingOn, TrailOf, UncountedOf;
    forall q | q in t.ticks
      ensures !PendingOn(t.ticks[q], i)
    {
      if q != p && PendingOn(t.ticks[q], i) {
        OnlyPending(s, p, q, i);
      }
    }
    forall q | q in s.ticks
      ensures !PendingOn(s.ticks[q], i)
    {
      assert q != p ==> t.ticks[q] == s.ticks[q];
    }
  }

  /** The row an attempt of `p` is about, as long as the attempt goes on. */
  lemma PendingRow(s: State, t: State, p: nat, tick: Tick, i: nat)
    requires OnePass(s) && Passing(s.ticks, p) && t.ticks == s.ticks[p := tick]
    requires i < |t.box.rows| && PendingOn(tick, i) && AttemptOk(TrailOf(t.box, i), tick, UncountedOf(t, i))
    ensures RowOk(t, i)
  {
    hide Accounted, AttemptOk, PendingOn, TrailOf, UncountedOf;
    assert !Idle(t, i) by { assert p in t.ticks && PendingOn(t.ticks[p], i); }
    forall q | q in t.ticks && PendingOn(t.ticks[q], i)
      ensures q == p
    {
      if q != p {
        OnlyPending(s, p, q, i);
      }
    }
  }

  /** The same row once the attempt is settled. */
  lemma SettledRow(s: State, t: State, p: nat, tick: Tick, i: nat)
    requires OnePass(s) && Passing(s.ticks, p) && t.ticks == s.ticks[p := tick]
    requires i < |t.box.rows| && !PendingOn(tick, i) && Accounted(TrailOf(t.box, i), UncountedOf(t, i))
    ensures RowOk(t, i)
  {
    hide Accounted, AttemptOk, PendingOn, TrailOf, UncountedOf;
    forall q | q in t.ticks && PendingOn(t.ticks[q], i)
      ensures false
    {
      if q != p {
        OnlyPending(s, p, q, i);
      }
    }
  }

  /** The attempt that a settled count, or a settled mark, completes. */
  lemma AttemptSettles(t: Trail, tick: Tick, effect: bool, uncounted: nat)
    requires AttemptOk(t, tick, uncounted)
    ensures tick.Counting? ==>
      Accounted(Trail(CountedOnce(t.row, effect), t.copies), uncounted + if !effect && tick.enqueued then 1 else 0)
    ensures tick.Marking? ==> Accounted(Trail(Marked(t.row, true), t.copies), uncounted)
    ensures tick.Marking? ==>
      forall batch, k :: AttemptOk(Trail(Marked(t.row, effect), t.copies), Counting(batch, k, true), uncounted)
  {
    var base := Before(t, InFlight(tick));
    var count := if effect then Counted else CountRejected(false);
    var attempt := if t.row.processed then MarkRejected(true)
                   else AddRejected(tick.Counting? && tick.enqueued);
    OneAccounted(base, Outcome(attempt, count), uncounted);
    OneAccounted(base, Outcome(Published, Counted), uncounted);
    hide Accounted;
    assert Marked(t.row, effect).(processed := false) == t.row.(processed := false);
  }

  lemma AddKeepsRow(s: State, p: nat, rejected: bool, effect: bool, i: nat)
    requires Inv(s) && RowsOk(s) && Enabled(s, AddSettles(p, rejected, effect)) && i < |s.box.rows|
    ensures RowOk(Step(s, AddSettles(p, rejected, effect)), i)
  {
    var (batch, k) := (s.ticks[p].batch, s.ticks[p].k);
    var t := Step(s, AddSettles(p, rejected, effect));
    assert TickOk(s.box.rows, s.ticks[p]) && RowOk(s, i);
    assert EligibleAt(s.box.rows, batch[k]);
    assert multiset(s.box.queue + [batch[k]]) == multiset(s.box.queue) + multiset{batch[k]};
    hide OnePass, TickOk, Remaining, Accounted;
    if i == batch[k] {
      assert Idle(s, i) by { NobodyPending(s, p, i); }
      assert Before(TrailOf(t.box, i), InFlight(t.ticks[p])) == TrailOf(s.box, i);
      PendingRow(s, t, p, t.ticks[p], i);
    } else {
      UntouchedRow(s, t, p, t.ticks[p], i);
    }
  }

  lemma NobodyPending(s: State, p: nat, i: nat)
    requires OnePass(s) && Passing(s.ticks, p) && !PendingOn(s.ticks[p], i)
    ensures Idle(s, i)
  {
    forall q | q in s.ticks
      ensures !PendingOn(s.ticks[q], i)
    {
      if PendingOn(s.ticks[q], i) {
        OnlyPending(s, p, q, i);
      }
    }
  }

  lemma MarkKeepsRow(s: State, p: nat, rejected: bool, effect: bool, i: nat)
    requires Inv(s) && RowsOk(s) && Enabled(s, MarkSettles(p, rejected, effect)) && i < |s.box.rows|
    ensures RowOk(Step(s, MarkSettles(p, rejected, effect)), i)
  {
    var (batch, k) := (s.ticks[p].batch, s.ticks[p].k);
    var t := Step(s, MarkSettles(p, rejected, effect));
    assert TickOk(s.box.rows, s.ticks[p]) && RowOk(s, i);
    NextEventDiffers(s, p, batch, k);
    hide OnePass, TickOk, Remaining, Accounted, AttemptOk;
    if i == batch[k] {
      AttemptSettles(TrailOf(s.box, i), s.ticks[p], effect, UncountedOf(s, i));
      if rejected {
        PendingRow(s, t, p, t.ticks[p], i);
      } else {
        SettledRow(s, t, p, t.ticks[p], i);
      }
    } else {
      UntouchedRow(s, t, p, t.ticks[p], i);
    }
  }

  lemma NextEventDiffers(s: State, p: nat, batch: seq<nat>, k: nat)
    ensures forall i: nat {:trigger PendingOn(Adding(batch, k + 1), i)} :: !PendingOn(Adding(batch, k + 1), i)
    ensures forall i: nat {:trigger PendingOn(Ended, i)} :: !PendingOn(Ended, i)
  {
  }

  lemma CountKeepsRow(s: State, p: nat, rejected: bool, effect: bool, i: nat)
    requires Inv(s) && RowsOk(s) && Enabled(s, CountSettles(p, rejected, effect)) && i < |s.box.rows|
    ensures RowOk(Step(s, CountSettles(p, rejected, effect)), i)
  {
    var (batch, k) := (s.ticks[p].batch, s.ticks[p].k);
    var t := Step(s, CountSettles(p, rejected, effect));
    assert TickOk(s.box.rows, s.ticks[p]) && RowOk(s, i);
    assert multiset(s.uncounted + [batch[k]]) == multiset(s.uncounted) + multiset{batch[k]};
    NextEventDiffers(s, p, batch, k);
    hide OnePass, TickOk, Remaining, Accounted, AttemptOk;
    if i == batch[k] {
      AttemptSettles(TrailOf(s.box, i), s.ticks[p], effect, UncountedOf(s, i));
      SettledRow(s, t, p, t.ticks[p], i);
    } else {
      UntouchedRow(s, t, p, t.ticks[p], i);
    }
  }

  /** Steps that leave the tables alone and no attempt in the middle. */
  lemma TickKeepsRow(s: State, t: State, p: nat, tick: Tick, i: nat)
    requires t.ticks == s.ticks[p := tick] && (p in s.ticks ==> s.ticks[p].Querying?)
    requires tick.Querying? || tick.Adding? || tick.Ended?
    requires t.box == s.box && t.uncounted == s.uncounted && i < |s.box.rows| && RowOk(s, i)
    ensures RowOk(t, i)
  {
    hide Accounted, AttemptOk;
    if Idle(t, i) {
      forall q | q in s.ticks
        ensures !PendingOn(s.ticks[q], i)
      {
        assert q != p ==> t.ticks[q] == s.ticks[q];
      }
    }
    forall q | q in t.ticks && PendingOn(t.ticks[q], i)
      ensures AttemptOk(TrailOf(t.box, i), t.ticks[q], UncountedOf(t, i))
    {
      assert q != p && t.ticks[q] == s.ticks[q];
    }
  }

  lemma InsertKeepsRows(s: State, row: OutboxRow)
    requires Inv(s) && RowsOk(s) && Fresh([row])
    ensures RowsOk(Step(s, Insert(row)))
  {
    var t, n := Step(s, Insert(row)), |s.box.rows|;
    assert [row][0] == row;
    forall i | 0 <= i < |t.box.rows|
      ensures RowOk(t, i)
    {
      if i < n {
        assert RowOk(s, i) && TrailOf(t.box, i) == TrailOf(s.box, i);
        hide Accounted, AttemptOk;
        assert Idle(t, i) == Idle(s, i);
      } else {
        assert n !in s.box.queue && n !in s.uncounted;
        forall p | p in t.ticks
          ensures !PendingOn(t.ticks[p], n)
        {
          assert TickOk(s.box.rows, s.ticks[p]);
        }
      }
    }
  }

  lemma StepKeepsKnown(s: State, a: Action)
    requires Enabled(s, a) && QueueKnown(s.box) && QueueKnown(Outbox(s.box.rows, s.uncounted))
    ensures var t := Step(s, a);
      QueueKnown(t.box) && QueueKnown(Outbox(t.box.rows, t.uncounted)) && |t.box.rows| >= |s.box.rows|
  {
  }

  lemma StepKeepsRows(s: State, a: Action)
    requires Inv(s) && RowsOk(s) && Enabled(s, a)
    ensures RowsOk(Step(s, a))
  {
    if a.Insert? {
      hide RowsOk, Inv, Step;
      InsertKeepsRows(s, a.row);
    } else {
      StepKeepsKnown(s, a);
      hide QueueKnown, Inv, RowOk;
      var t := Step(s, a);
      assert |t.box.rows| == |s.box.rows|;
      forall i | 0 <= i < |t.box.rows|
        ensures RowOk(t, i)
      {
        match a
        case Fire(p) => TickKeepsRow(s, t, p, t.ticks[p], i);
        case QuerySettles(p, _, _) => TickKeepsRow(s, t, p, t.ticks[p], i);
        case AddSettles(p, rejected, effect) => AddKeepsRow(s, p, rejected, effect, i);
        case MarkSettles(p, rejected, effect) => MarkKeepsRow(s, p, rejected, effect, i);
        case CountSettles(p, rejected, effect) => CountKeepsRow(s, p, rejected, effect, i);
      }
    }
  }

  lemma {:induction false} RunKeepsRows(s: State, run: seq<Action>)
    requires Inv(s) && RowsOk(s)
    ensures Continue(s, run).Some? ==> RowsOk(Continue(s, run).value)
  {
    hide Inv, RowsOk, Step, Enabled;
    if run == [] {
    } else {
      var before := run[..|run| - 1];
      RunKeepsRows(s, before);
      RunKeeps(s, before);
      if Continue(s, run).Some? {
        StepKeepsRows(Continue(s, before).value, run[|run| - 1]);
      }
    }
  }

  /** Delivery accounting under overlap, from fresh rows: a processed row was enqueued; but for
      uncounted copies no row has more than 5; and a row that no attempt is in the middle of is
      accounted for as after whole passes, a row that one is as it was before it. */
  lemma TicksAccounted(rows: seq<OutboxRow>, run: seq<Action>, i: nat)
    requires Fresh(rows)
    ensures Continue(Start(rows), run).Some? && i < |Continue(Start(rows), run).value.box.rows| ==>
      var s := Continue(Start(rows), run).value;
      var t, uncounted := TrailOf(s.box, i), UncountedOf(s, i);
      && (t.row.processed ==> t.copies >= 1) && t.copies <= MAX_RETRIES + uncounted
      && (Idle(s, i) ==> Accounted(t, uncounted))
      && (forall p :: p in s.ticks && PendingOn(s.ticks[p], i) ==> AttemptOk(t, s.ticks[p], uncounted))
  {
    FreshRowsOk(rows);
    RunKeepsRows(Start(rows), run);
    hide Continue, QueueKnown;
    if Continue(Start(rows), run).Some? && i < |Continue(Start(rows), run).value.box.rows| {
      var s := Continue(Start(rows), run).value;
      assert RowOk(s, i);
      if p :| p in s.ticks && PendingOn(s.ticks[p], i) {
        assert AttemptOk(TrailOf(s.box, i), s.ticks[p], UncountedOf(s, i));
      }
    }
  }

  lemma FreshRowsOk(rows: seq<OutboxRow>)
    requires Fresh(rows)
    ensures Inv(Start(rows)) && RowsOk(Start(rows))
  {
    forall i | 0 <= i < |rows|
      ensures RowOk(Start(rows), i)
    {
      FreshAccounted(rows, i);
    }
  }
}
