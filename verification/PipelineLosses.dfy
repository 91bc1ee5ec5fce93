/** When a notification is given up before its 12 attempts, and where every outbox row ends. */
module PipelineLosses {
  import opened Rows
  import opened Outbox
  import opened Pipeline
  import opened PipelineBounds

  // ---- Lost notifications ----

  /** A queue rejects a job on its way to or from the dead-letter queue. */
  predicate Loses(l: Line, e: Event)
    requires Possible(l, e)
  {
    match e
    case Send(k, ok, deadAccepted) => !ok && l.mail[k].attemptsMade + 1 >= ATTEMPTS && !deadAccepted
    case Bury(k, accepted) => l.dead[k].dlqCount < MAX_DLQ_REPROCESS && !accepted
    case _ => false
  }

  /** It does so while the notification has generations left. */
  predicate LosesEarly(l: Line, e: Event)
    requires Possible(l, e)
  {
    Loses(l, e) && (e.Send? ==> l.mail[e.k].dlqCount < MAX_DLQ_REPROCESS)
  }

  predicate AfterTwelve(lost: seq<DeadJob>) {
    forall k :: 0 <= k < |lost| ==> lost[k].failures == 12
  }

  /** The exact step condition: a step loses a notification, exactly one, if and only if a queue
      rejects it. */
  lemma LosesIff(l: Line, e: Event)
    requires Possible(l, e)
    ensures Advance(l, e).lost != l.lost <==> Loses(l, e)
    ensures |Advance(l, e).lost| == |l.lost| + if Loses(l, e) then 1 else 0
  {
  }

  lemma LosesEarlyIff(l: Line, e: Event)
    requires LineOk(l) && Possible(l, e)
    ensures AfterTwelve(Advance(l, e).lost) <==> AfterTwelve(l.lost) && !LosesEarly(l, e)
  {
    var lost, next := l.lost, Advance(l, e).lost;
    match e {
      case Send(k, ok, deadAccepted) =>
        assert MailOk(l.rows, l.mail[k]);
        if Loses(l, e) {
          AfterTwelveSnoc(lost, DeadOf(l.mail[k]));
        }
      case Bury(k, accepted) =>
        assert DeadOk(l.rows, l.dead[k]);
        if Loses(l, e) {
          AfterTwelveSnoc(lost, l.dead[k]);
        }
      case _ =>
    }
  }

  lemma AfterTwelveSnoc(lost: seq<DeadJob>, job: DeadJob)
    ensures AfterTwelve(lost + [job]) <==> AfterTwelve(lost) && job.failures == 12
  {
    if AfterTwelve(lost + [job]) {
      assert forall k :: 0 <= k < |lost| ==> (lost + [job])[k] == lost[k];
      assert (lost + [job])[|lost|] == job;
    }
  }

  ghost predicate NoneLost(l: Line, events: seq<Event>)
    decreases |events|
  {
    events == []
    || (Possible(l, events[0]) ==> !Loses(l, events[0]) && NoneLost(Advance(l, events[0]), events[1..]))
  }

  ghost predicate NoneLostEarly(l: Line, events: seq<Event>)
    decreases |events|
  {
    events == []
    || (Possible(l, events[0]) ==> !LosesEarly(l, events[0]) && NoneLostEarly(Advance(l, events[0]), events[1..]))
  }

  lemma {:induction false} FlowLosesIff(l: Line, events: seq<Event>)
    requires LineOk(l)
    ensures Flow(l, events).Some? ==>
      var end := Flow(l, events).value;
      && |l.lost| <= |end.lost| && (|end.lost| == |l.lost| <==> NoneLost(l, events))
      && (AfterTwelve(end.lost) <==> AfterTwelve(l.lost) && NoneLostEarly(l, events))
    decreases |events|
  {
    if events == [] {
    } else if Possible(l, events[0]) {
      LosesIff(l, events[0]);
      LosesEarlyIff(l, events[0]);
      AdvanceKeepsLine(l, events[0]);
      hide LineOk, Advance, Loses, AfterTwelve;
      FlowLosesIff(Advance(l, events[0]), events[1..]);
    }
  }

  /** Over every flow: nothing is lost if and only if no queue rejected a notification; and every
      notification given up had 12 failed sends if and only if no queue rejected one that had
      generations left. */
  lemma GivenUpAfterTwelveIff(l: Line, events: seq<Event>)
    requires Untouched(l)
    ensures Flow(l, events).Some? ==>
      var end := Flow(l, events).value;
      && (end.lost == [] <==> NoneLost(l, events))
      && (AfterTwelve(end.lost) && AfterTwelve(end.dropped) <==> NoneLostEarly(l, events))
  {
    UntouchedBudget(Steps, l);
    FlowLosesIff(l, events);
    FlowKeepsLine(l, events);
    hide Flow, Budget, Used, NoneLost, NoneLostEarly;
    if Flow(l, events).Some? {
      var end := Flow(l, events).value;
      assert forall k :: 0 <= k < |end.dropped| ==> DeadOk(end.rows, end.dropped[k]) && end.dropped[k].failures == 12;
    }
  }

  /** A deposit event whose notification fails three times and is then rejected by the dead-letter
      queue is lost after these three sends. */
  lemma RejectionLosesEarly(l: Line, o: Outcome) returns (events: seq<Event>)
    requires Untouched(l) && |l.rows| == 1 && l.rows[0].event.name == DEPOSIT_SUCCEEDED && o.attempt == Published
    ensures |events| == 5
    ensures Flow(l, events).Some? ==> !NoneLostEarly(l, events)
    ensures var end := Flow(l, events);
      end.Some? && |end.value.lost| == 1 && end.value.lost[0].failures == 3
      && end.value.domain == [] && end.value.mail == [] && end.value.dead == [] && end.value.delivered == []
  {
    var publish, route := Publish(0, o), Route(0, 1, false);
    var a, b := DepositRouted(l, o);
    var rest, end := RejectedAtOnce(b);
    events := [publish, route] + rest;
    assert events[1..] == [route] + rest && ([route] + rest)[1..] == rest;
    hide Advance, Untouched;
    FlowCons(a, route, rest);
    FlowCons(l, publish, [route] + rest);
    assert [publish] + ([route] + rest) == events;
    GivenUpAfterTwelveIff(l, events);
  }

  lemma FlowCons(l: Line, e: Event, rest: seq<Event>)
    requires Possible(l, e)
    ensures Flow(l, [e] + rest) == Flow(Advance(l, e), rest)
  {
    assert ([e] + rest)[1..] == rest;
  }

  lemma DepositRouted(l: Line, o: Outcome) returns (a: Line, b: Line)
    requires Untouched(l) && |l.rows| == 1 && l.rows[0].event.name == DEPOSIT_SUCCEEDED && o.attempt == Published
    ensures Possible(l, Publish(0, o)) && a == Advance(l, Publish(0, o))
    ensures Possible(a, Route(0, 1, false)) && b == Advance(a, Route(0, 1, false))
    ensures b.domain == [] && b.dead == [] && b.lost == [] && b.delivered == []
    ensures |b.mail| == 1 && b.mail[0] == MailJob(0, b.mail[0].notice, 0, 0, 0)
  {
    a := Advance(l, Publish(0, o));
    assert a.domain == [DomainJob(0, l.rows[0].event, 0)];
    b := Advance(a, Route(0, 1, false));
    var notice := FanOut(l.rows[0].event)[0];
    assert FanOut(l.rows[0].event)[..1] == [notice];
    assert b.mail == NewMail(0, [notice]);
  }

  lemma RejectedAtOnce(b: Line) returns (events: seq<Event>, e: Line)
    requires |b.mail| == 1 && b.mail[0] == MailJob(0, b.mail[0].notice, 0, 0, 0) && b.lost == []
    ensures |events| == 3 && Flow(b, events) == Some(e)
    ensures |e.lost| == 1 && e.lost[0].failures == 3 && e.mail == []
    ensures e.domain == b.domain && e.dead == b.dead && e.delivered == b.delivered
  {
    var fail, reject := Send(0, false, true), Send(0, false, false);
    var c := Advance(b, fail);
    var d := Advance(c, fail);
    e := Advance(d, reject);
    events := [fail] + ([fail] + ([reject] + []));
    assert e.lost == [DeadJob(0, b.mail[0].notice, 0, 3)] && e.mail == [];
    assert Flow(e, []) == Some(e);
    hide Advance, Flow;
    FlowCons(d, reject, []);
    FlowCons(c, fail, [reject] + []);
    FlowCons(b, fail, [fail] + ([reject] + []));
  }

  // ---- Where every row ends ----

  ghost predicate InDomain(l: Line, i: nat) {
    exists k :: 0 <= k < |l.domain| && l.domain[k].source == i
  }

  ghost predicate Exhausted(l: Line, i: nat) {
    exists k :: 0 <= k < |l.exhausted| && l.exhausted[k].source == i
  }

  ghost predicate AllStarted(l: Line, i: nat)
    requires i < |l.rows|
  {
    forall j :: 0 <= j < |FanOut(l.rows[i].event)| ==> Tag(i, FanOut(l.rows[i].event)[j]) in l.started
  }

  /** What came of a row that was marked processed. */
  ghost predicate Traced(l: Line) {
    forall i :: 0 <= i < |l.rows| && l.rows[i].processed ==> InDomain(l, i) || Exhausted(l, i) || AllStarted(l, i)
  }

  lemma PublishTraces(l: Line, i: nat, o: Outcome)
    requires Traced(l) && Possible(l, Publish(i, o))
    ensures Traced(PublishStep(l, i, o))
  {
    var next := PublishStep(l, i, o);
    forall j | 0 <= j < |next.rows| && next.rows[j].processed
      ensures InDomain(next, j) || Exhausted(next, j) || AllStarted(next, j)
    {
      if j == i {
        assert next.domain[|l.domain|].source == i;
      } else if k :| 0 <= k < |l.domain| && l.domain[k].source == j {
        assert next.domain[k].source == j;
      } else {
        assert Exhausted(l, j) || AllStarted(l, j);
      }
    }
  }

  lemma RouteTraces(l: Line, k: nat, added: nat, threw: bool)
    requires LineOk(l) && Traced(l) && Possible(l, Route(k, added, threw))
    ensures Traced(RouteStep(l, k, added, threw))
  {
    var next, job := RouteStep(l, k, added, threw), l.domain[k];
    assert DomainOk(l.rows, job);
    forall j | 0 <= j < |next.rows| && next.rows[j].processed
      ensures InDomain(next, j) || Exhausted(next, j) || AllStarted(next, j)
    {
      if j == job.source {
        RoutedRow(l, k, added, threw);
      } else {
        OtherRow(l, k, added, threw, j);
      }
    }
  }

  lemma RoutedRow(l: Line, k: nat, added: nat, threw: bool)
    requires Possible(l, Route(k, added, threw)) && DomainOk(l.rows, l.domain[k])
    ensures var next, i := RouteStep(l, k, added, threw), l.domain[k].source;
      InDomain(next, i) || Exhausted(next, i) || AllStarted(next, i)
  {
    var next, job := RouteStep(l, k, added, threw), l.domain[k];
    if threw && job.attemptsMade + 1 < ATTEMPTS {
      assert next.domain[k].source == job.source;
    } else if threw {
      assert next.exhausted[|l.exhausted|].source == job.source;
    } else {
      forall j | 0 <= j < |FanOut(job.event)|
        ensures Tag(job.source, FanOut(job.event)[j]) in next.started
      {
        assert next.started[|l.started| + j] == Tag(job.source, FanOut(job.event)[j]);
      }
    }
  }

  lemma OtherRow(l: Line, k: nat, added: nat, threw: bool, j: nat)
    requires Possible(l, Route(k, added, threw)) && j < |l.rows| && j != l.domain[k].source
    requires InDomain(l, j) || Exhausted(l, j) || AllStarted(l, j)
    ensures var next := RouteStep(l, k, added, threw);
      InDomain(next, j) || Exhausted(next, j) || AllStarted(next, j)
  {
    var next := RouteStep(l, k, added, threw);
    if m :| 0 <= m < |l.domain| && l.domain[m].source == j {
      var at := if |next.domain| == |l.domain| || m < k then m else m - 1;
      assert next.domain[at].source == j;
    } else if m :| 0 <= m < |l.exhausted| && l.exhausted[m].source == j {
      assert next.exhausted[m].source == j;
    } else {
      forall n | 0 <= n < |FanOut(l.rows[j].event)|
        ensures Tag(j, FanOut(l.rows[j].event)[n]) in next.started
      {
        assert Tag(j, FanOut(l.rows[j].event)[n]) in l.started;
      }
    }
  }

  lemma AdvanceTraces(l: Line, e: Event)
    requires LineOk(l) && Traced(l) && Possible(l, e)
    ensures Traced(Advance(l, e))
  {
    match e
    case Publish(i, o) =>
      PublishTraces(l, i, o);
      SameTraces(PublishStep(l, i, o), Advance(l, e));
    case Route(k, added, threw) =>
      RouteTraces(l, k, added, threw);
      SameTraces(RouteStep(l, k, added, threw), Advance(l, e));
    case _ => SameTraces(l, Advance(l, e));
  }

  lemma SameTraces(l: Line, next: Line)
    requires Traced(l) && next.rows == l.rows && next.domain == l.domain
    requires next.exhausted == l.exhausted && next.started == l.started
    ensures Traced(next)
  {
    forall i | 0 <= i < |l.rows| && l.rows[i].processed
      ensures InDomain(next, i) || Exhausted(next, i) || AllStarted(next, i)
    {
      assert InDomain(l, i) || Exhausted(l, i) || AllStarted(l, i);
    }
  }

  lemma {:induction false} FlowTraces(l: Line, events: seq<Event>)
    requires LineOk(l) && Traced(l)
    ensures Flow(l, events).Some? ==> Traced(Flow(l, events).value)
    decreases |events|
  {
    if events == [] {
    } else if Possible(l, events[0]) {
      AdvanceKeepsLine(l, events[0]);
      AdvanceTraces(l, events[0]);
      hide LineOk, Traced, Advance;
      FlowTraces(Advance(l, events[0]), events[1..]);
    }
  }

  predicate Abandoned(row: OutboxRow) {
    !row.processed && row.retryCount >= MAX_RETRIES
  }

  /** Nothing is left to do: no event of any kind is possible. */
  ghost predicate AtRest(l: Line) {
    forall e :: !Possible(l, e)
  }

  ghost predicate SettledAs(l: Line, tag: Tag) {
    tag in MailTags(l.delivered) || tag in DeadTags(l.dropped) || tag in DeadTags(l.lost)
  }

  lemma RestIsEmpty(l: Line, i: nat)
    requires AtRest(l) && i < |l.rows|
    ensures l.domain == [] && l.mail == [] && l.dead == [] && !Eligible(l.rows[i])
  {
    assert !Possible(l, Publish(i, Outcome(Published, Counted)));
    assert !Possible(l, Route(0, 0, true));
    assert !Possible(l, Send(0, true, true));
    assert !Possible(l, Bury(0, true));
  }

  // ---- When all notifications of a row get through ----

  /** An attempt to route a job of row `i` that gets every notification through. */
  predicate RoutesAll(l: Line, e: Event, i: nat)
    requires Possible(l, e)
  {
    e.Route? && l.domain[e.k].source == i && e.added == |FanOut(l.domain[e.k].event)|
  }

  ghost predicate SomeRouted(l: Line, events: seq<Event>, i: nat)
    decreases |events|
  {
    events != [] && Possible(l, events[0])
    && (RoutesAll(l, events[0], i) || SomeRouted(Advance(l, events[0]), events[1..], i))
  }

  predicate LastStarted(l: Line, i: nat)
    requires i < |l.rows|
  {
    var notices := FanOut(l.rows[i].event);
    notices != [] && Tag(i, notices[|notices| - 1]) in l.started
  }

  /** The last notification of row `i` is started only with all the others. */
  ghost predicate InOrder(l: Line, i: nat) {
    i < |l.rows| && (LastStarted(l, i) ==> AllStarted(l, i))
  }

  lemma RouteStartsAllIff(l: Line, k: nat, added: nat, threw: bool, i: nat)
    requires Possible(l, Route(k, added, threw)) && DomainOk(l.rows, l.domain[k]) && InOrder(l, i)
    requires FanOut(l.rows[i].event) != []
    ensures var next := RouteStep(l, k, added, threw);
      InOrder(next, i) && (AllStarted(next, i) <==> AllStarted(l, i) || RoutesAll(l, Route(k, added, threw), i))
  {
    var next, job, notices := RouteStep(l, k, added, threw), l.domain[k], FanOut(l.rows[i].event);
    var more := NewTags(job.source, FanOut(job.event)[..added]);
    assert next.started == l.started + more;
    var last := Tag(i, notices[|notices| - 1]);
    if job.source == i {
      LastComesLast(i, l.rows[i].event, added);
    } else {
      assert last !in more;
    }
    forall j | 0 <= j < |notices| && Tag(i, notices[j]) in l.started
      ensures Tag(i, notices[j]) in next.started
    {
    }
    if AllStarted(next, i) {
      assert last in next.started;
    }
  }

  /** A part of a row's notifications contains the last one only if it is all of them. */
  lemma LastComesLast(i: nat, event: OutboxEvent, added: nat)
    requires added <= |FanOut(event)| && FanOut(event) != []
    ensures var notices := FanOut(event);
      && (Tag(i, notices[|notices| - 1]) in NewTags(i, notices[..added]) <==> added == |notices|)
      && (added == |notices| ==> forall j :: 0 <= j < |notices| ==> Tag(i, notices[j]) in NewTags(i, notices[..added]))
  {
    var notices := FanOut(event);
    var tags := NewTags(i, notices[..added]);
    assert forall j :: 0 <= j < added ==> tags[j] == Tag(i, notices[j]);
  }

  lemma AdvanceStartsAllIff(l: Line, e: Event, i: nat)
    requires LineOk(l) && Possible(l, e) && InOrder(l, i) && FanOut(l.rows[i].event) != []
    ensures var next := Advance(l, e);
      && InOrder(next, i) && next.rows[i].event == l.rows[i].event
      && (AllStarted(next, i) <==> AllStarted(l, i) || RoutesAll(l, e, i))
  {
    hide FanOut;
    var next := Advance(l, e);
    assert i < |next.rows| && next.rows[i].event == l.rows[i].event;
    if e.Route? {
      assert DomainOk(l.rows, l.domain[e.k]);
      hide LineOk;
      RouteStartsAllIff(l, e.k, e.added, e.threw, i);
      SameStarts(RouteStep(l, e.k, e.added, e.threw), next, i);
    } else {
      hide LineOk;
      SameStarts(l, next, i);
    }
  }

  lemma SameStarts(a: Line, b: Line, i: nat)
    requires i < |a.rows| && i < |b.rows| && a.rows[i].event == b.rows[i].event && a.started == b.started
    ensures (AllStarted(a, i) <==> AllStarted(b, i)) && (InOrder(a, i) <==> InOrder(b, i))
  {
    hide FanOut;
  }

  /** The exact condition: over every flow all notifications of a row are started if and only if
      they were, or some attempt to route a job of the row got all of them through. */
  lemma {:induction false} AllStartedIff(l: Line, events: seq<Event>, i: nat)
    requires LineOk(l) && InOrder(l, i) && FanOut(l.rows[i].event) != []
    ensures Flow(l, events).Some? ==>
      var end := Flow(l, events).value;
      && i < |end.rows| && end.rows[i].event == l.rows[i].event
      && (AllStarted(end, i) <==> AllStarted(l, i) || SomeRouted(l, events, i))
    decreases |events|
  {
    if events == [] {
    } else if Possible(l, events[0]) {
      AdvanceKeepsLine(l, events[0]);
      AdvanceStartsAllIff(l, events[0], i);
      hide LineOk, AllStarted, InOrder, Advance, RoutesAll, FanOut;
      AllStartedIff(Advance(l, events[0]), events[1..], i);
    }
  }

  /** Each notification of the row was delivered, dropped or lost. */
  ghost predicate AllEnded(l: Line, i: nat)
    requires i < |l.rows|
  {
    forall j :: 0 <= j < |FanOut(l.rows[i].event)| ==> SettledAs(l, Tag(i, FanOut(l.rows[i].event)[j]))
  }

  lemma EndedIffStarted(l: Line, i: nat)
    requires Conserved(l) && l.mail == [] && l.dead == [] && i < |l.rows|
    ensures AllEnded(l, i) <==> AllStarted(l, i)
  {
    hide FanOut;
    forall j | 0 <= j < |FanOut(l.rows[i].event)|
      ensures SettledAs(l, Tag(i, FanOut(l.rows[i].event)[j])) <==> Tag(i, FanOut(l.rows[i].event)[j]) in l.started
    {
      SettledIffStarted(l, Tag(i, FanOut(l.rows[i].event)[j]));
    }
  }

  lemma SettledIffStarted(l: Line, tag: Tag)
    requires Conserved(l) && l.mail == [] && l.dead == []
    ensures SettledAs(l, tag) <==> tag in l.started
  {
    assert tag in l.started <==> tag in multiset(l.started);
    assert MailTags(l.mail) == [] && DeadTags(l.dead) == [];
    assert tag in multiset(l.started) <==>
      tag in multiset(MailTags(l.delivered)) || tag in multiset(DeadTags(l.dropped))
          || tag in multiset(DeadTags(l.lost));
  }

  /** End to end: when the pipeline has come to rest, each outbox row was abandoned by the publisher
      or processed; its notifications were all delivered, dropped or lost if and only if it has
      none or some attempt to route a job of it got all of them through; and a processed row for
      which no attempt did has a job that failed three times. */
  lemma EveryRowEnds(l: Line, events: seq<Event>, i: nat)
    requires Untouched(l) && i < |l.rows|
    ensures Flow(l, events).Some? && AtRest(Flow(l, events).value) ==>
      var end := Flow(l, events).value;
      && i < |end.rows| && end.rows[i].event == l.rows[i].event
      && (end.rows[i].processed || Abandoned(end.rows[i]))
      && (AllEnded(end, i) <==> FanOut(l.rows[i].event) == [] || SomeRouted(l, events, i))
      && (end.rows[i].processed && !AllEnded(end, i) ==> Exhausted(end, i))
  {
    UntouchedBudget(Steps, l);
    FlowTraces(l, events);
    FlowConserves(l, events);
    RowsStay(l, events, i);
    if FanOut(l.rows[i].event) != [] {
      AllStartedIff(l, events, i);
    }
    if Flow(l, events).Some? && AtRest(Flow(l, events).value) {
      var end := Flow(l, events).value;
      hide Flow, Budget, LineOk, FanOut, Conserved, SomeRouted;
      RestIsEmpty(end, i);
      hide AtRest;
      EndedIffStarted(end, i);
    }
  }

  lemma {:induction false} RowsStay(l: Line, events: seq<Event>, i: nat)
    requires i < |l.rows|
    ensures Flow(l, events).Some? ==>
      var end := Flow(l, events).value;
      i < |end.rows| && end.rows[i].event == l.rows[i].event
    decreases |events|
  {
    if events == [] {
    } else if Possible(l, events[0]) {
      var next := Advance(l, events[0]);
      assert i < |next.rows| && next.rows[i].event == l.rows[i].event;
      hide Advance;
      RowsStay(next, events[1..], i);
    }
  }

  /** A deposit event whose routing fails three times: at rest, processed, and without any
      notification. */
  lemma RoutingFailsThrice(l: Line, o: Outcome) returns (events: seq<Event>)
    requires Untouched(l) && |l.rows| == 1 && l.rows[0].event.name == DEPOSIT_SUCCEEDED && o.attempt == Published
    ensures |events| == 4
    ensures var end := Flow(l, events);
      end.Some? && AtRest(end.value) && |end.value.rows| == 1 && end.value.rows[0].processed
      && Exhausted(end.value, 0) && end.value.started == [] && !AllEnded(end.value, 0)
  {
    hide Advance, Flow, AtRest, Exhausted, AllEnded, Untouched;
    var publish, fail := Publish(0, o), Route(0, 0, true);
    var a := LoneDepositPublished(l, o);
    var end := ThreeRoutings(a);
    events := [publish] + [fail, fail, fail];
    FlowCons(l, publish, [fail, fail, fail]);
    RestWithoutNotices(end);
  }

  lemma LoneDepositPublished(l: Line, o: Outcome) returns (a: Line)
    requires Untouched(l) && |l.rows| == 1 && l.rows[0].event.name == DEPOSIT_SUCCEEDED && o.attempt == Published
    ensures Possible(l, Publish(0, o)) && a == Advance(l, Publish(0, o))
    ensures a == Line(a.rows, [DomainJob(0, l.rows[0].event, 0)], [], [], [], [], [], [], [], [], 1)
    ensures |a.rows| == 1 && a.rows[0].processed && a.rows[0].event.name == DEPOSIT_SUCCEEDED
  {
    a := Advance(l, Publish(0, o));
    assert a.domain == [DomainJob(0, l.rows[0].event, 0)];
  }

  lemma RestWithoutNotices(end: Line)
    requires |end.rows| == 1 && end.rows[0].processed && end.rows[0].event.name == DEPOSIT_SUCCEEDED
    requires end.domain == [] && end.mail == [] && end.dead == []
    requires end.delivered == [] && end.dropped == [] && end.lost == []
    requires |end.exhausted| == 1 && end.exhausted[0].source == 0
    ensures AtRest(end) && Exhausted(end, 0) && !AllEnded(end, 0)
  {
    assert |FanOut(end.rows[0].event)| == 1;
    assert !SettledAs(end, Tag(0, FanOut(end.rows[0].event)[0]));
  }

  lemma ThreeRoutings(a: Line) returns (end: Line)
    requires |a.domain| == 1 && a.domain[0].attemptsMade == 0 && a.exhausted == []
    ensures Flow(a, [Route(0, 0, true), Route(0, 0, true), Route(0, 0, true)]) == Some(end)
    ensures end == a.(domain := [], exhausted := [a.domain[0].(attemptsMade := 2)], steps := a.steps + 3)
  {
    var fail := Route(0, 0, true);
    hide FanOut;
    var b := Advance(a, fail);
    NothingAdded(a);
    assert b == a.(domain := [a.domain[0].(attemptsMade := 1)], steps := a.steps + 1);
    var c := Advance(b, fail);
    NothingAdded(b);
    assert c == a.(domain := [a.domain[0].(attemptsMade := 2)], steps := a.steps + 2);
    end := Advance(c, fail);
    NothingAdded(c);
    assert end.domain == [];
    hide Advance;
    FlowCons(c, fail, []);
    FlowCons(b, fail, [fail]);
    FlowCons(a, fail, [fail, fail]);
    assert [fail] + [] == [fail] && [fail] + [fail] == [fail, fail] && [fail] + [fail, fail] == [fail, fail, fail];
  }

  lemma NothingAdded(l: Line)
    requires |l.domain| == 1
    ensures l.mail + NewMail(l.domain[0].source, FanOut(l.domain[0].event)[..0]) == l.mail
    ensures l.started + NewTags(l.domain[0].source, FanOut(l.domain[0].event)[..0]) == l.started
  {
  }
}
