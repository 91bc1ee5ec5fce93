/** The promises of the event pipeline, from an untouched outbox. */
module PipelineBounds {
  import opened Rows
  import opened Outbox
  import opened Pipeline

  /** Initial notifications and send attempts that one outbox row can cause at most, if
      `uncounted` copies of it were enqueued by attempts that were not counted. */
  function MaxStarts(event: OutboxEvent, uncounted: nat): nat {
    (MAX_RETRIES + uncounted) * ATTEMPTS * |FanOut(event)|
  }

  function MaxSends(event: OutboxEvent, uncounted: nat): nat {
    MaxStarts(event, uncounted) * ATTEMPTS * GENERATIONS
  }

  predicate UncountedCopy(e: Event, source: nat) {
    e.Publish? && e.i == source && !CountedEvent(e) && Enqueues(e.outcome)
  }

  function UncountedCopies(events: seq<Event>, source: nat): nat
    decreases |events|
  {
    if events == [] then 0
    else (if UncountedCopy(events[0], source) then 1 else 0) + UncountedCopies(events[1..], source)
  }

  function Uncounted(events: seq<Event>): nat
    decreases |events|
  {
    if events == [] then 0 else (if CountedEvent(events[0]) then 0 else 1) + Uncounted(events[1..])
  }

  lemma {:induction false} OnlyOneWeight(g: Gauge, rows: seq<OutboxRow>, source: nat)
    requires g.Sends? || g.Starts?
    requires g.source == source
    ensures Sum(RowWeights(g, rows)) == if source < |rows| then RowWeight(g, source, rows[source]) else 0
  {
    if rows == [] {
    } else {
      var n := |rows| - 1;
      OnlyOneWeight(g, rows[..n], source);
      assert RowWeights(g, rows)[..n] == RowWeights(g, rows[..n]);
      assert n != source ==> RouteWeight(g, n, rows[n].event) == 0;
      assert n != source ==> RowWeight(g, n, rows[n]) == 0;
    }
  }

  lemma UntouchedBudget(g: Gauge, l: Line)
    requires Untouched(l)
    ensures LineOk(l) && Used(g, l) == 0 && Budget(g, l) == Sum(RowWeights(g, l.rows))
  {
    assert DomainWeights(g, []) == [] && MailWeights(g, []) == [] && DeadWeights(g, []) == [];
  }

  /** Whatever fails, one row causes at most 5 * 3 * 2 = 30 initial notifications and 360 send
      attempts when it is a TransferCompleted event, 15 and 180 when it is a DepositSucceeded
      event, and none otherwise; a copy enqueued by an attempt that was not counted adds a fifth
      of that. */
  lemma RowBounds(l: Line, events: seq<Event>, source: nat)
    requires Untouched(l) && source < |l.rows|
    ensures Flow(l, events).Some? ==>
      var end, event, uncounted := Flow(l, events).value, l.rows[source].event, UncountedCopies(events, source);
      && StartedBy(end.started, source) <= MaxStarts(event, uncounted)
      && multiset(end.sends)[source] <= MaxSends(event, uncounted)
    ensures KnownBounds(l.rows[source].event)
  {
    OneGauge(Sends(source), l, events, source);
    OneGauge(Starts(source), l, events, source);
    BoundsKnown(l.rows[source].event);
    CopyWeights(l.rows[source].event, source, MAX_RETRIES + UncountedCopies(events, source));
    hide Flow, Untouched, StartedBy, KnownBounds, FanOut, UncountedCopies, DomainWeight;
  }

  ghost predicate KnownBounds(event: OutboxEvent) {
    && (event.name == TRANSFER_COMPLETED ==> MaxStarts(event, 0) == 30 && MaxSends(event, 0) == 360)
    && (event.name == DEPOSIT_SUCCEEDED ==> MaxStarts(event, 0) == 15 && MaxSends(event, 0) == 180)
    && (event.name != TRANSFER_COMPLETED && event.name != DEPOSIT_SUCCEEDED ==>
          forall uncounted: nat :: MaxStarts(event, uncounted) == MaxSends(event, uncounted) == 0)
  }

  lemma BoundsKnown(event: OutboxEvent)
    ensures KnownBounds(event)
  {
  }

  /** What some copies of a row on the domain-events queue may cost. */
  lemma CopyWeights(event: OutboxEvent, source: nat, copies: nat)
    ensures copies * DomainWeight(Starts(source), DomainJob(source, event, 0)) == copies * ATTEMPTS * |FanOut(event)|
    ensures copies * DomainWeight(Sends(source), DomainJob(source, event, 0))
         == copies * ATTEMPTS * |FanOut(event)| * ATTEMPTS * GENERATIONS
  {
  }

  /** Copies of a row that were not counted are what its budget does not pay for. */
  lemma {:induction false} UnpaidCopies(g: Gauge, l: Line, events: seq<Event>, source: nat)
    requires source < |l.rows| && (g == Sends(source) || g == Starts(source))
    ensures Flow(l, events).Some? ==>
      UnpaidIn(g, l, events)
      == UncountedCopies(events, source) * DomainWeight(g, DomainJob(source, l.rows[source].event, 0))
    decreases |events|
  {
    var weight := DomainWeight(g, DomainJob(source, l.rows[source].event, 0));
    if events == [] {
    } else if Possible(l, events[0]) {
      var e, next := events[0], Advance(l, events[0]);
      assert source < |next.rows| && next.rows[source].event == l.rows[source].event;
      OneUnpaid(g, l, e, source);
      hide Advance, Unpaid, UncountedCopy, DomainWeight;
      UnpaidCopies(g, next, events[1..], source);
      OneMore(UncountedCopies(events[1..], source), weight);
    }
  }

  lemma OneMore(n: nat, weight: nat)
    ensures (1 + n) * weight == weight + n * weight
  {
  }

  lemma OneUnpaid(g: Gauge, l: Line, e: Event, source: nat)
    requires source < |l.rows| && (g == Sends(source) || g == Starts(source)) && Possible(l, e)
    ensures Unpaid(g, l, e)
         == if UncountedCopy(e, source) then DomainWeight(g, DomainJob(source, l.rows[source].event, 0)) else 0
  {
    if e.Publish? && e.i != source {
      assert RouteWeight(g, e.i, l.rows[e.i].event) == 0;
    }
  }

  lemma OneGauge(g: Gauge, l: Line, events: seq<Event>, source: nat)
    requires Untouched(l) && source < |l.rows| && (g == Sends(source) || g == Starts(source))
    ensures Flow(l, events).Some? ==>
      Used(g, Flow(l, events).value)
      <= (MAX_RETRIES + UncountedCopies(events, source)) * DomainWeight(g, DomainJob(source, l.rows[source].event, 0))
  {
    UntouchedBudget(g, l);
    OnlyOneWeight(g, l.rows, source);
    FlowWithinBudget(g, l, events);
    UnpaidCopies(g, l, events, source);
    RowIsFiveCopies(g, l.rows[source], source);
    hide DomainWeight, RowWeight, Budget, Used, UnpaidIn, Flow, LineOk, UncountedCopies;
    Distributes(MAX_RETRIES, UncountedCopies(events, source),
                DomainWeight(g, DomainJob(source, l.rows[source].event, 0)));
  }

  lemma RowIsFiveCopies(g: Gauge, row: OutboxRow, source: nat)
    requires !row.processed && row.retryCount == 0 && !g.Steps?
    ensures RowWeight(g, source, row) == MAX_RETRIES * DomainWeight(g, DomainJob(source, row.event, 0))
  {
    hide RouteWeight;
  }

  lemma Distributes(a: nat, b: nat, weight: nat)
    ensures (a + b) * weight == a * weight + b * weight
  {
  }

  lemma {:induction false} StepWeights(rows: seq<OutboxRow>)
    ensures Sum(RowWeights(Steps, rows)) <= 500 * |rows|
  {
    if rows == [] {
    } else {
      var n := |rows| - 1;
      StepWeights(rows[..n]);
      assert RowWeights(Steps, rows)[..n] == RowWeights(Steps, rows[..n]);
      assert RouteWeight(Steps, n, rows[n].event) <= 33;
    }
  }

  lemma {:induction false} UnpaidSteps(l: Line, events: seq<Event>)
    ensures UnpaidIn(Steps, l, events) <= 100 * Uncounted(events)
    decreases |events|
  {
    if events == [] {
    } else if Possible(l, events[0]) {
      assert Unpaid(Steps, l, events[0]) <= if CountedEvent(events[0]) then 0 else 100;
      hide Advance, Unpaid, CountedEvent;
      UnpaidSteps(Advance(l, events[0]), events[1..]);
    }
  }

  /** The pipeline comes to rest: n rows cause at most 500 n steps of all workers together, and each
      failed publish that is not counted 100 more. */
  lemma PipelineTerminates(l: Line, events: seq<Event>)
    requires Untouched(l)
    ensures Flow(l, events).Some? ==> |events| <= 500 * |l.rows| + 100 * Uncounted(events)
  {
    UntouchedBudget(Steps, l);
    StepWeights(l.rows);
    FlowWithinBudget(Steps, l, events);
    UnpaidSteps(l, events);
    StepsCounted(l, events);
    hide Flow, Untouched, Budget, LineOk, UnpaidIn;
  }

  lemma {:induction false} StepsCounted(l: Line, events: seq<Event>)
    ensures Flow(l, events).Some? ==> Flow(l, events).value.steps == l.steps + |events|
    decreases |events|
  {
    if events == [] {
    } else if Possible(l, events[0]) {
      StepsCounted(Advance(l, events[0]), events[1..]);
    }
  }

  // ---- Where notifications end ----

  function MailTags(jobs: seq<MailJob>): seq<Tag> {
    seq(|jobs|, k requires 0 <= k < |jobs| => Tag(jobs[k].source, jobs[k].notice))
  }

  function DeadTags(jobs: seq<DeadJob>): seq<Tag> {
    seq(|jobs|, k requires 0 <= k < |jobs| => Tag(jobs[k].source, jobs[k].notice))
  }

  /** Every initial notification is, unchanged, in exactly one place. */
  ghost predicate Conserved(l: Line) {
    multiset(l.started) == multiset(MailTags(l.mail)) + multiset(DeadTags(l.dead)) + multiset(MailTags(l.delivered))
                           + multiset(DeadTags(l.dropped)) + multiset(DeadTags(l.lost))
  }

  lemma TagsWithout(tags: seq<Tag>, k: nat)
    requires k < |tags|
    ensures multiset(tags) == multiset(Without(tags, k)) + multiset{tags[k]}
  {
    assert tags == tags[..k] + [tags[k]] + tags[k + 1..];
  }

  lemma MailRemoved(jobs: seq<MailJob>, k: nat)
    requires k < |jobs|
    ensures multiset(MailTags(jobs))
         == multiset(MailTags(Without(jobs, k))) + multiset{Tag(jobs[k].source, jobs[k].notice)}
  {
    TagsWithout(MailTags(jobs), k);
    assert MailTags(Without(jobs, k)) == Without(MailTags(jobs), k);
  }

  lemma DeadRemoved(jobs: seq<DeadJob>, k: nat)
    requires k < |jobs|
    ensures multiset(DeadTags(jobs))
         == multiset(DeadTags(Without(jobs, k))) + multiset{Tag(jobs[k].source, jobs[k].notice)}
  {
    TagsWithout(DeadTags(jobs), k);
    assert DeadTags(Without(jobs, k)) == Without(DeadTags(jobs), k);
  }

  lemma MailAdded(jobs: seq<MailJob>, job: MailJob)
    ensures multiset(MailTags(jobs + [job])) == multiset(MailTags(jobs)) + multiset{Tag(job.source, job.notice)}
  {
    assert MailTags(jobs + [job]) == MailTags(jobs) + [Tag(job.source, job.notice)];
  }

  lemma DeadAdded(jobs: seq<DeadJob>, job: DeadJob)
    ensures multiset(DeadTags(jobs + [job])) == multiset(DeadTags(jobs)) + multiset{Tag(job.source, job.notice)}
  {
    assert DeadTags(jobs + [job]) == DeadTags(jobs) + [Tag(job.source, job.notice)];
  }

  lemma RouteConserves(l: Line, k: nat, added: nat, threw: bool)
    requires Conserved(l) && Possible(l, Route(k, added, threw))
    ensures Conserved(RouteStep(l, k, added, threw))
  {
    var next, job := RouteStep(l, k, added, threw), l.domain[k];
    var notices := FanOut(job.event)[..added];
    hide FanOut;
    assert MailTags(next.mail) == MailTags(l.mail) + NewTags(job.source, notices);
    assert multiset(MailTags(next.mail)) == multiset(MailTags(l.mail)) + multiset(NewTags(job.source, notices));
    assert multiset(next.started) == multiset(l.started) + multiset(NewTags(job.source, notices));
  }

  lemma SendConserves(l: Line, k: nat, ok: bool, deadAccepted: bool)
    requires Conserved(l) && k < |l.mail|
    ensures Conserved(SendStep(l, k, ok, deadAccepted))
  {
    var job := l.mail[k];
    MailRemoved(l.mail, k);
    if ok {
      MailAdded(l.delivered, job);
    } else if job.attemptsMade + 1 < ATTEMPTS {
      assert MailTags(SendStep(l, k, ok, deadAccepted).mail) == MailTags(l.mail);
    } else {
      DeadAdded(l.dead, DeadOf(job));
      DeadAdded(l.lost, DeadOf(job));
    }
    hide MailTags, DeadTags, Without;
  }

  lemma BuryConserves(l: Line, k: nat, accepted: bool)
    requires Conserved(l) && k < |l.dead|
    ensures Conserved(BuryStep(l, k, accepted))
  {
    var job := l.dead[k];
    DeadRemoved(l.dead, k);
    DeadAdded(l.dropped, job);
    DeadAdded(l.lost, job);
    MailAdded(l.mail, Revived(job));
    hide MailTags, DeadTags, Without;
  }

  lemma AdvanceConserves(l: Line, e: Event)
    requires Conserved(l) && Possible(l, e)
    ensures Conserved(Advance(l, e))
  {
    match e
    case Publish(i, o) =>
    case Route(k, added, threw) => RouteConserves(l, k, added, threw);
    case Send(k, ok, deadAccepted) => SendConserves(l, k, ok, deadAccepted);
    case Bury(k, accepted) => BuryConserves(l, k, accepted);
  }

  lemma {:induction false} FlowConserves(l: Line, events: seq<Event>)
    requires Conserved(l)
    ensures Flow(l, events).Some? ==> Conserved(Flow(l, events).value)
    decreases |events|
  {
    hide Conserved, Advance;
    if events == [] {
    } else if Possible(l, events[0]) {
      AdvanceConserves(l, events[0]);
      FlowConserves(Advance(l, events[0]), events[1..]);
    }
  }

  /** Dead-letter termination and accounting: every initial notification is, with its job name,
      event name and payload unchanged, in flight, delivered, dropped or lost to a queue that
      rejected it; every failed send of its lineage is counted, at most 12 and fewer before a
      delivery; and it is dropped only after 4 generations of 3 attempts, 12 in all, have failed. */
  lemma NothingVanishes(l: Line, events: seq<Event>, k: nat)
    requires Untouched(l)
    ensures Flow(l, events).Some? ==>
      var end := Flow(l, events).value;
      && Conserved(end)
      && (k < |end.mail| ==> end.mail[k].failures == ATTEMPTS * end.mail[k].dlqCount + end.mail[k].attemptsMade < 12)
      && (k < |end.dead| ==> end.dead[k].failures == ATTEMPTS * (end.dead[k].dlqCount + 1) <= 12)
      && (k < |end.delivered| ==> end.delivered[k].failures < 12)
      && (k < |end.dropped| ==> end.dropped[k].failures == 12)
      && (k < |end.lost| ==> end.lost[k].failures <= 12)
  {
    UntouchedBudget(Steps, l);
    assert Conserved(l);
    FlowConserves(l, events);
    FlowKeepsLine(l, events);
    hide Flow, Conserved, Budget, Used, Untouched;
    if Flow(l, events).Some? {
      var end := Flow(l, events).value;
      assert k < |end.mail| ==> MailOk(end.rows, end.mail[k]);
      assert k < |end.dead| ==> DeadOk(end.rows, end.dead[k]);
      assert k < |end.delivered| ==> MailOk(end.rows, end.delivered[k]);
      assert k < |end.dropped| ==> DeadOk(end.rows, end.dropped[k]) && end.dropped[k].dlqCount == MAX_DLQ_REPROCESS;
      assert k < |end.lost| ==> DeadOk(end.rows, end.lost[k]);
    }
  }
}
