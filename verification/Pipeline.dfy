/** From an outbox row to the last notification attempt: publisher, domain-events worker,
    notifications worker and dead-letter worker as one machine, and the bounds it obeys. */
module Pipeline {
  import opened Rows
  import opened Outbox

  const ATTEMPTS := 3             // of the domain-events and notifications queues
  const MAX_DLQ_REPROCESS := 3
  const NOTIFICATIONS := "notifications"
  const DOMAIN_EVENTS := "domain-events"

  /** A notification: its job name and the data that is sent. */
  datatype Notice = Notice(name: string, eventName: string, payload: Payload)

  /** The notifications of one domain event. */
  function FanOut(event: OutboxEvent): seq<Notice> {
    if event.name == TRANSFER_COMPLETED then
      [Notice(TRANSFER_SENT, TRANSFER_SENT, event.payload),
       Notice(TRANSFER_RECEIVED, TRANSFER_RECEIVED, event.payload)]
    else if event.name == DEPOSIT_SUCCEEDED then
      [Notice(event.name, event.name, event.payload)]
    else []
  }

  datatype DomainJob = DomainJob(source: nat, event: OutboxEvent, attemptsMade: nat)

  /** `source` is the outbox row a job stems from and `failures` counts the failed sends of its
      whole lineage; both are history. */
  datatype MailJob = MailJob(source: nat, notice: Notice, dlqCount: nat, attemptsMade: nat, failures: nat)
  datatype DeadJob = DeadJob(source: nat, notice: Notice, dlqCount: nat, failures: nat)

  /** What never changes along a lineage: where it started and what it notifies of. */
  datatype Tag = Tag(source: nat, notice: Notice)

  datatype Line = Line(
    rows: seq<OutboxRow>,
    domain: seq<DomainJob>,
    mail: seq<MailJob>,
    dead: seq<DeadJob>,
    started: seq<Tag>,         // every initial notification job
    sends: seq<nat>,           // source of every send attempt
    delivered: seq<MailJob>,
    dropped: seq<DeadJob>,     // given up after the last reprocessing
    lost: seq<DeadJob>,        // a queue rejected the job
    exhausted: seq<DomainJob>, // domain jobs whose last attempt threw; nothing listens to that queue's failures
    steps: nat)

  datatype Event =
    | Publish(i: nat, outcome: Outcome)
    | Route(k: nat, added: nat, threw: bool)   // `added` notifications got through
    | Send(k: nat, ok: bool, deadAccepted: bool)
    | Bury(k: nat, accepted: bool)

  predicate Possible(l: Line, e: Event) {
    match e
    case Publish(i, _) => EligibleAt(l.rows, i)
    case Route(k, added, threw) =>
      k < |l.domain| && added <= |FanOut(l.domain[k].event)| && (!threw ==> added == |FanOut(l.domain[k].event)|)
    case Send(k, _, _) => k < |l.mail|
    case Bury(k, _) => k < |l.dead|
  }

  function Without<T>(s: seq<T>, k: nat): seq<T>
    requires k < |s|
  {
    s[..k] + s[k + 1..]
  }

  function NewMail(source: nat, notices: seq<Notice>): seq<MailJob> {
    seq(|notices|, j requires 0 <= j < |notices| => MailJob(source, notices[j], 0, 0, 0))
  }

  function NewTags(source: nat, notices: seq<Notice>): seq<Tag> {
    seq(|notices|, j requires 0 <= j < |notices| => Tag(source, notices[j]))
  }

  function PublishStep(l: Line, i: nat, o: Outcome): Line
    requires i < |l.rows|
  {
    l.(rows := l.rows[i := Attempted(l.rows[i], o)],
       domain := if Enqueues(o) then l.domain + [DomainJob(i, l.rows[i].event, 0)] else l.domain)
  }

  function RouteStep(l: Line, k: nat, added: nat, threw: bool): Line
    requires k < |l.domain| && added <= |FanOut(l.domain[k].event)|
  {
    var job := l.domain[k];
    l.(domain := if threw && job.attemptsMade + 1 < ATTEMPTS
                 then l.domain[k := job.(attemptsMade := job.attemptsMade + 1)]
                 else Without(l.domain, k),
       exhausted := if threw && job.attemptsMade + 1 >= ATTEMPTS then l.exhausted + [job] else l.exhausted,
       mail := l.mail + NewMail(job.source, FanOut(job.event)[..added]),
       started := l.started + NewTags(job.source, FanOut(job.event)[..added]))
  }

  function DeadOf(job: MailJob): DeadJob {
    DeadJob(job.source, job.notice, job.dlqCount, job.failures + 1)
  }

  function SendStep(l: Line, k: nat, ok: bool, deadAccepted: bool): Line
    requires k < |l.mail|
  {
    var job := l.mail[k];
    var tried := l.(sends := l.sends + [job.source]);
    if ok then tried.(mail := Without(l.mail, k), delivered := l.delivered + [job])
    else if job.attemptsMade + 1 < ATTEMPTS then
      tried.(mail := l.mail[k := job.(attemptsMade := job.attemptsMade + 1, failures := job.failures + 1)])
    else if deadAccepted then tried.(mail := Without(l.mail, k), dead := l.dead + [DeadOf(job)])
    else tried.(mail := Without(l.mail, k), lost := l.lost + [DeadOf(job)])
  }

  function Revived(job: DeadJob): MailJob {
    MailJob(job.source, job.notice, job.dlqCount + 1, 0, job.failures)
  }

  function BuryStep(l: Line, k: nat, accepted: bool): Line
    requires k < |l.dead|
  {
    var job := l.dead[k];
    var taken := l.(dead := Without(l.dead, k));
    if job.dlqCount >= MAX_DLQ_REPROCESS then taken.(dropped := l.dropped + [job])
    else if accepted then taken.(mail := l.mail + [Revived(job)])
    else taken.(lost := l.lost + [job])
  }

  function Advance(l: Line, e: Event): Line
    requires Possible(l, e)
  {
    var next :=
      match e
      case Publish(i, o) => PublishStep(l, i, o)
      case Route(k, added, threw) => RouteStep(l, k, added, threw)
      case Send(k, ok, deadAccepted) => SendStep(l, k, ok, deadAccepted)
      case Bury(k, accepted) => BuryStep(l, k, accepted);
    next.(steps := l.steps + 1)
  }

  ghost function Flow(l: Line, events: seq<Event>): Option<Line>
    decreases |events|
  {
    if events == [] then Some(l)
    else if Possible(l, events[0]) then Flow(Advance(l, events[0]), events[1..])
    else None
  }

  /** An outbox before any publishing. */
  ghost predicate Untouched(l: Line) {
    && (forall i :: 0 <= i < |l.rows| ==> !l.rows[i].processed && l.rows[i].retryCount == 0)
    && l == Line(l.rows, [], [], [], [], [], [], [], [], [], 0)
  }

  // ---- Budgets ----

  /** What is counted: send attempts or initial notifications caused by one row, or all steps. */
  datatype Gauge = Sends(source: nat) | Starts(source: nat) | Steps

  const GENERATIONS := 1 + MAX_DLQ_REPROCESS

  function DeadWeight(g: Gauge, job: DeadJob): nat {
    var left := if job.dlqCount < MAX_DLQ_REPROCESS then MAX_DLQ_REPROCESS - job.dlqCount else 0;
    match g
    case Sends(source) => if job.source == source then ATTEMPTS * left else 0
    case Starts(_) => 0
    case Steps => 1 + (ATTEMPTS + 1) * left
  }

  function AttemptsLeft(made: nat): nat {
    if made < ATTEMPTS then ATTEMPTS - made else 0
  }

  function MailWeight(g: Gauge, job: MailJob): nat {
    (match g
     case Sends(source) => if job.source == source then AttemptsLeft(job.attemptsMade) else 0
     case Starts(_) => 0
     case Steps => AttemptsLeft(job.attemptsMade))
    + DeadWeight(g, DeadJob(job.source, job.notice, job.dlqCount, 0))
  }

  /** What one initial notification may still cost. */
  function NoticeWeight(g: Gauge, source: nat): nat {
    match g
    case Sends(s) => if s == source then ATTEMPTS * GENERATIONS else 0
    case Starts(s) => if s == source then 1 else 0
    case Steps => (ATTEMPTS + 1) * GENERATIONS
  }

  /** What one attempt to route a domain job may cost. */
  function RouteWeight(g: Gauge, source: nat, event: OutboxEvent): nat {
    (if g.Steps? then 1 else 0) + |FanOut(event)| * NoticeWeight(g, source)
  }

  function DomainWeight(g: Gauge, job: DomainJob): nat {
    AttemptsLeft(job.attemptsMade) * RouteWeight(g, job.source, job.event)
  }

  function RowWeight(g: Gauge, i: nat, row: OutboxRow): nat {
    if Eligible(row) then
      (MAX_RETRIES - row.retryCount) * ((if g.Steps? then 1 else 0) + ATTEMPTS * RouteWeight(g, i, row.event))
    else 0
  }

  function Sum(ws: seq<nat>): nat {
    if ws == [] then 0 else Sum(ws[..|ws| - 1]) + ws[|ws| - 1]
  }

  function RowWeights(g: Gauge, rows: seq<OutboxRow>): seq<nat> {
    seq(|rows|, i requires 0 <= i < |rows| => RowWeight(g, i, rows[i]))
  }

  function DomainWeights(g: Gauge, jobs: seq<DomainJob>): seq<nat> {
    seq(|jobs|, i requires 0 <= i < |jobs| => DomainWeight(g, jobs[i]))
  }

  function MailWeights(g: Gauge, jobs: seq<MailJob>): seq<nat> {
    seq(|jobs|, i requires 0 <= i < |jobs| => MailWeight(g, jobs[i]))
  }

  function DeadWeights(g: Gauge, jobs: seq<DeadJob>): seq<nat> {
    seq(|jobs|, i requires 0 <= i < |jobs| => DeadWeight(g, jobs[i]))
  }

  function Budget(g: Gauge, l: Line): nat {
    Sum(RowWeights(g, l.rows)) + Sum(DomainWeights(g, l.domain))
    + Sum(MailWeights(g, l.mail)) + Sum(DeadWeights(g, l.dead))
  }

  function StartedBy(started: seq<Tag>, source: nat): nat {
    if started == [] then 0
    else StartedBy(started[..|started| - 1], source) + if started[|started| - 1].source == source then 1 else 0
  }

  function Used(g: Gauge, l: Line): nat {
    match g
    case Sends(source) => multiset(l.sends)[source]
    case Starts(source) => StartedBy(l.started, source)
    case Steps => l.steps
  }

  lemma {:induction false} SumConcat(a: seq<nat>, b: seq<nat>)
    ensures Sum(a + b) == Sum(a) + Sum(b)
  {
    if b == [] {
      assert a + b == a;
    } else {
      SumConcat(a, b[..|b| - 1]);
      assert (a + b)[..|a| + |b| - 1] == a + b[..|b| - 1];
    }
  }

  lemma {:induction false} SumAt(ws: seq<nat>, k: nat)
    requires k < |ws|
    ensures Sum(ws) == Sum(Without(ws, k)) + ws[k]
  {
    var n := |ws| - 1;
    if k == n {
      assert Without(ws, k) == ws[..n];
    } else {
      SumAt(ws[..n], k);
      assert Without(ws, k) == Without(ws[..n], k) + [ws[n]];
      SumSnoc(Without(ws[..n], k), ws[n]);
    }
  }

  lemma SumPut(ws: seq<nat>, k: nat, w: nat)
    requires k < |ws|
    ensures Sum(ws[k := w]) + ws[k] == Sum(ws) + w
  {
    SumAt(ws, k);
    SumAt(ws[k := w], k);
    assert Without(ws[k := w], k) == Without(ws, k);
  }

  lemma SumSnoc(ws: seq<nat>, w: nat)
    ensures Sum(ws + [w]) == Sum(ws) + w
  {
    assert (ws + [w])[..|ws|] == ws;
  }

  lemma RowPut(g: Gauge, rows: seq<OutboxRow>, i: nat, row: OutboxRow)
    requires i < |rows|
    ensures Sum(RowWeights(g, rows[i := row])) + RowWeight(g, i, rows[i])
        == Sum(RowWeights(g, rows)) + RowWeight(g, i, row)
  {
    SumPut(RowWeights(g, rows), i, RowWeight(g, i, row));
    assert RowWeights(g, rows[i := row]) == RowWeights(g, rows)[i := RowWeight(g, i, row)];
  }

  lemma DomainAdded(g: Gauge, jobs: seq<DomainJob>, job: DomainJob)
    ensures Sum(DomainWeights(g, jobs + [job])) == Sum(DomainWeights(g, jobs)) + DomainWeight(g, job)
  {
    SumSnoc(DomainWeights(g, jobs), DomainWeight(g, job));
    assert DomainWeights(g, jobs + [job]) == DomainWeights(g, jobs) + [DomainWeight(g, job)];
  }

  /** A failed publish is counted, so that it brings the row nearer to its end. */
  predicate CountedEvent(e: Event) {
    e.Publish? ==> e.outcome.attempt.Published? || Increments(e.outcome)
  }

  /** What a publish that is not counted adds to the budget. */
  function Unpaid(g: Gauge, l: Line, e: Event): nat
    requires Possible(l, e)
  {
    if CountedEvent(e) then 0
    else (if g.Steps? then 1 else 0)
         + if Enqueues(e.outcome) then DomainWeight(g, DomainJob(e.i, l.rows[e.i].event, 0)) else 0
  }

  ghost function UnpaidIn(g: Gauge, l: Line, events: seq<Event>): nat
    decreases |events|
  {
    if events == [] || !Possible(l, events[0]) then 0
    else Unpaid(g, l, events[0]) + UnpaidIn(g, Advance(l, events[0]), events[1..])
  }

  lemma RowPays(g: Gauge, i: nat, row: OutboxRow, o: Outcome)
    requires Eligible(row) && (o.attempt.Published? || Increments(o))
    ensures RowWeight(g, i, Attempted(row, o)) + DomainWeight(g, DomainJob(i, row.event, 0))
         + (if g.Steps? then 1 else 0)
         <= RowWeight(g, i, row)
  {
    OneRetryLess(row, Attempted(row, o), (if g.Steps? then 1 else 0) + ATTEMPTS * RouteWeight(g, i, row.event));
    hide RouteWeight;
  }

  /** A failed publish that is not counted leaves the row as costly as it was, at most. */
  lemma UncountedRow(g: Gauge, i: nat, row: OutboxRow, o: Outcome)
    requires !CountedEvent(Publish(i, o))
    ensures RowWeight(g, i, Attempted(row, o)) <= RowWeight(g, i, row)
  {
    hide RouteWeight;
  }

  lemma PublishBudget(g: Gauge, l: Line, i: nat, o: Outcome)
    requires Possible(l, Publish(i, o))
    ensures Budget(g, PublishStep(l, i, o)) + (if g.Steps? then 1 else 0) <= Budget(g, l) + Unpaid(g, l, Publish(i, o))
  {
    RowPut(g, l.rows, i, Attempted(l.rows[i], o));
    DomainAdded(g, l.domain, DomainJob(i, l.rows[i].event, 0));
    if CountedEvent(Publish(i, o)) {
      RowPays(g, i, l.rows[i], o);
    } else {
      UncountedRow(g, i, l.rows[i], o);
    }
    hide Sum, RowWeight, DomainWeight, RowWeights, DomainWeights, MailWeights, DeadWeights, Attempted, Enqueues;
  }

  lemma OneRetryLess(row: OutboxRow, after: OutboxRow, unit: nat)
    requires Eligible(row)
    requires !Eligible(after) || after.retryCount == row.retryCount + 1
    ensures (if Eligible(after) then (MAX_RETRIES - after.retryCount) * unit else 0) + unit
         <= (MAX_RETRIES - row.retryCount) * unit
  {
    var n := MAX_RETRIES - row.retryCount;
    assert n * unit == (n - 1) * unit + unit;
    assert (n - 1) * unit >= 0;
  }

  lemma {:induction false} NewMailWeight(g: Gauge, source: nat, notices: seq<Notice>)
    ensures Sum(MailWeights(g, NewMail(source, notices))) + (if g.Starts? && g.source == source then |notices| else 0)
         == |notices| * NoticeWeight(g, source)
  {
    if notices == [] {
    } else {
      var n := |notices| - 1;
      NewMailWeight(g, source, notices[..n]);
      var ws := MailWeights(g, NewMail(source, notices));
      assert ws[..n] == MailWeights(g, NewMail(source, notices[..n]));
    }
  }

  lemma DomainWithout(g: Gauge, jobs: seq<DomainJob>, k: nat)
    requires k < |jobs|
    ensures Sum(DomainWeights(g, Without(jobs, k))) + DomainWeight(g, jobs[k]) == Sum(DomainWeights(g, jobs))
  {
    SumAt(DomainWeights(g, jobs), k);
    DomainWeightsWithout(g, jobs, k);
    hide Sum, DomainWeight, DomainWeights, Without;
    assert DomainWeights(g, jobs)[k] == DomainWeight(g, jobs[k]);
  }

  lemma DomainWeightsWithout(g: Gauge, jobs: seq<DomainJob>, k: nat)
    requires k < |jobs|
    ensures DomainWeights(g, Without(jobs, k)) == Without(DomainWeights(g, jobs), k)
    ensures DomainWeights(g, jobs)[k] == DomainWeight(g, jobs[k])
  {
    hide DomainWeight;
  }

  lemma DomainPut(g: Gauge, jobs: seq<DomainJob>, k: nat, job: DomainJob)
    requires k < |jobs|
    ensures Sum(DomainWeights(g, jobs[k := job])) + DomainWeight(g, jobs[k])
        == Sum(DomainWeights(g, jobs)) + DomainWeight(g, job)
  {
    SumPut(DomainWeights(g, jobs), k, DomainWeight(g, job));
    assert DomainWeights(g, jobs[k := job]) == DomainWeights(g, jobs)[k := DomainWeight(g, job)];
  }

  lemma RoutePays(g: Gauge, job: DomainJob)
    requires job.attemptsMade < ATTEMPTS
    ensures DomainWeight(g, job.(attemptsMade := job.attemptsMade + 1)) + RouteWeight(g, job.source, job.event)
         == DomainWeight(g, job) >= RouteWeight(g, job.source, job.event)
  {
    OneAttemptLess(job.attemptsMade, RouteWeight(g, job.source, job.event));
    hide RouteWeight;
  }

  /** The routed job pays for its notifications and, if it stays, for its next attempts. */
  lemma RouteDomain(g: Gauge, l: Line, k: nat, added: nat, threw: bool)
    requires Possible(l, Route(k, added, threw)) && l.domain[k].attemptsMade < ATTEMPTS
    ensures Sum(DomainWeights(g, RouteStep(l, k, added, threw).domain))
         + RouteWeight(g, l.domain[k].source, l.domain[k].event)
         <= Sum(DomainWeights(g, l.domain))
  {
    var job := l.domain[k];
    var again := job.(attemptsMade := job.attemptsMade + 1);
    RoutePays(g, job);
    hide RouteWeight, DomainWeight, Sum, DomainWeights, FanOut, NewMail, NewTags, Without;
    var next := RouteStep(l, k, added, threw).domain;
    if threw && job.attemptsMade + 1 < ATTEMPTS {
      DomainPut(g, l.domain, k, again);
      assert next == l.domain[k := again];
    } else {
      DomainWithout(g, l.domain, k);
      assert next == Without(l.domain, k);
    }
  }

  lemma RouteMail(g: Gauge, l: Line, k: nat, added: nat, threw: bool)
    requires Possible(l, Route(k, added, threw))
    ensures var next, job := RouteStep(l, k, added, threw), l.domain[k];
      Sum(MailWeights(g, next.mail)) + (if g.Starts? then Used(g, next) - Used(g, l) else 0)
      <= Sum(MailWeights(g, l.mail)) + |FanOut(job.event)| * NoticeWeight(g, job.source)
  {
    var next, job := RouteStep(l, k, added, threw), l.domain[k];
    var created := NewMail(job.source, FanOut(job.event)[..added]);
    NewMailWeight(g, job.source, FanOut(job.event)[..added]);
    FewerNotices(added, |FanOut(job.event)|, NoticeWeight(g, job.source));
    SumConcat(MailWeights(g, l.mail), MailWeights(g, created));
    assert next.mail == l.mail + created;
    assert MailWeights(g, next.mail) == MailWeights(g, l.mail) + MailWeights(g, created);
    hide Sum, MailWeights, NoticeWeight, NewMail;
    if g.Starts? {
      StartedCount(l.started, FanOut(job.event)[..added], job.source, g.source);
    }
  }

  lemma RouteBudget(g: Gauge, l: Line, k: nat, added: nat, threw: bool)
    requires Possible(l, Route(k, added, threw)) && l.domain[k].attemptsMade < ATTEMPTS
    ensures var next := RouteStep(l, k, added, threw);
      Budget(g, next) + (if g.Steps? then 1 else 0) + (if g.Starts? then Used(g, next) - Used(g, l) else 0)
      <= Budget(g, l)
    ensures RouteStep(l, k, added, threw).sends == l.sends
  {
    RouteDomain(g, l, k, added, threw);
    RouteMail(g, l, k, added, threw);
    hide Sum, MailWeights, DomainWeights, DeadWeights, RowWeights, Used, FanOut, NewMail, NewTags, NoticeWeight;
  }

  lemma OneAttemptLess(made: nat, unit: nat)
    requires made < ATTEMPTS
    ensures AttemptsLeft(made) * unit == AttemptsLeft(made + 1) * unit + unit >= unit
  {
  }

  lemma FewerNotices(a: nat, b: nat, w: nat)
    requires a <= b
    ensures a * w <= b * w
  {
  }

  lemma {:induction false} StartedCount(started: seq<Tag>, notices: seq<Notice>, source: nat, asked: nat)
    ensures StartedBy(started + NewTags(source, notices), asked)
         == StartedBy(started, asked) + if source == asked then |notices| else 0
  {
    var more := NewTags(source, notices);
    if notices == [] {
      assert started + more == started;
    } else {
      var n := |notices| - 1;
      StartedCount(started, notices[..n], source, asked);
      assert (started + more)[..|started| + n] == started + NewTags(source, notices[..n]);
    }
  }

  lemma MailWithout(g: Gauge, jobs: seq<MailJob>, k: nat)
    requires k < |jobs|
    ensures Sum(MailWeights(g, Without(jobs, k))) + MailWeight(g, jobs[k]) == Sum(MailWeights(g, jobs))
  {
    SumAt(MailWeights(g, jobs), k);
    hide Sum, MailWeight;
    assert MailWeights(g, Without(jobs, k)) == Without(MailWeights(g, jobs), k);
  }

  lemma MailPut(g: Gauge, jobs: seq<MailJob>, k: nat, job: MailJob)
    requires k < |jobs|
    ensures Sum(MailWeights(g, jobs[k := job])) + MailWeight(g, jobs[k])
        == Sum(MailWeights(g, jobs)) + MailWeight(g, job)
  {
    SumPut(MailWeights(g, jobs), k, MailWeight(g, job));
    assert MailWeights(g, jobs[k := job]) == MailWeights(g, jobs)[k := MailWeight(g, job)];
  }

  lemma DeadGained(g: Gauge, jobs: seq<DeadJob>, job: DeadJob)
    ensures Sum(DeadWeights(g, jobs + [job])) == Sum(DeadWeights(g, jobs)) + DeadWeight(g, job)
  {
    SumSnoc(DeadWeights(g, jobs), DeadWeight(g, job));
    assert DeadWeights(g, jobs + [job]) == DeadWeights(g, jobs) + [DeadWeight(g, job)];
  }

  function Retried(job: MailJob): MailJob {
    job.(attemptsMade := job.attemptsMade + 1, failures := job.failures + 1)
  }

  /** What one send costs. */
  function SendCost(g: Gauge, job: MailJob): nat {
    if g.Steps? || (g.Sends? && g.source == job.source) then 1 else 0
  }

  lemma SendPays(g: Gauge, job: MailJob)
    requires job.attemptsMade < ATTEMPTS
    ensures MailWeight(g, Retried(job)) + SendCost(g, job) <= MailWeight(g, job)
    ensures DeadWeight(g, DeadOf(job)) + SendCost(g, job) <= MailWeight(g, job)
  {
  }

  lemma SendBudget(g: Gauge, l: Line, k: nat, ok: bool, deadAccepted: bool)
    requires k < |l.mail| && l.mail[k].attemptsMade < ATTEMPTS
    ensures Budget(g, SendStep(l, k, ok, deadAccepted)) + SendCost(g, l.mail[k]) <= Budget(g, l)
  {
    var job := l.mail[k];
    SendPays(g, job);
    hide Sum, RowWeights, DomainWeights, MailWeights, DeadWeights, MailWeight, DeadWeight, SendCost, Without, DeadOf;
    if !ok && job.attemptsMade + 1 < ATTEMPTS {
      MailPut(g, l.mail, k, Retried(job));
    } else {
      MailWithout(g, l.mail, k);
      DeadGained(g, l.dead, DeadOf(job));
    }
  }

  lemma BuryBudget(g: Gauge, l: Line, k: nat, accepted: bool)
    requires k < |l.dead|
    ensures Budget(g, BuryStep(l, k, accepted)) + (if g.Steps? then 1 else 0) <= Budget(g, l)
  {
    var next, job := BuryStep(l, k, accepted), l.dead[k];
    DeadWithout(g, l.dead, k);
    hide Sum, RowWeights, DomainWeights, DeadWeights, Without;
    if job.dlqCount < MAX_DLQ_REPROCESS && accepted {
      MailGained(g, l.mail, Revived(job));
      hide MailWeights;
    }
  }

  lemma DeadWithout(g: Gauge, jobs: seq<DeadJob>, k: nat)
    requires k < |jobs|
    ensures Sum(DeadWeights(g, Without(jobs, k))) + DeadWeight(g, jobs[k]) == Sum(DeadWeights(g, jobs))
  {
    SumAt(DeadWeights(g, jobs), k);
    hide Sum, DeadWeight;
    assert DeadWeights(g, Without(jobs, k)) == Without(DeadWeights(g, jobs), k);
  }

  lemma MailGained(g: Gauge, jobs: seq<MailJob>, job: MailJob)
    ensures Sum(MailWeights(g, jobs + [job])) == Sum(MailWeights(g, jobs)) + MailWeight(g, job)
  {
    SumSnoc(MailWeights(g, jobs), MailWeight(g, job));
    hide Sum, MailWeight;
    assert MailWeights(g, jobs + [job]) == MailWeights(g, jobs) + [MailWeight(g, job)];
  }

  // ---- Lineages ----

  predicate RowFaithful(rows: seq<OutboxRow>, source: nat, notice: Notice) {
    source < |rows| && notice in FanOut(rows[source].event)
  }

  predicate MailOk(rows: seq<OutboxRow>, job: MailJob) {
    && RowFaithful(rows, job.source, job.notice)
    && job.attemptsMade < ATTEMPTS && job.dlqCount <= MAX_DLQ_REPROCESS
    && job.failures == ATTEMPTS * job.dlqCount + job.attemptsMade
  }

  predicate DeadOk(rows: seq<OutboxRow>, job: DeadJob) {
    && RowFaithful(rows, job.source, job.notice)
    && job.dlqCount <= MAX_DLQ_REPROCESS && job.failures == ATTEMPTS * (job.dlqCount + 1)
  }

  predicate DomainOk(rows: seq<OutboxRow>, job: DomainJob) {
    job.source < |rows| && job.event == rows[job.source].event && job.attemptsMade < ATTEMPTS
  }

  ghost predicate LineOk(l: Line) {
    && (forall k :: 0 <= k < |l.domain| ==> DomainOk(l.rows, l.domain[k]))
    && (forall k :: 0 <= k < |l.mail| ==> MailOk(l.rows, l.mail[k]))
    && (forall k :: 0 <= k < |l.dead| ==> DeadOk(l.rows, l.dead[k]))
    && (forall k :: 0 <= k < |l.delivered| ==> MailOk(l.rows, l.delivered[k]))
    && (forall k :: 0 <= k < |l.dropped| ==> DeadOk(l.rows, l.dropped[k]) && l.dropped[k].dlqCount == MAX_DLQ_REPROCESS)
    && (forall k :: 0 <= k < |l.lost| ==> DeadOk(l.rows, l.lost[k]))
    && (forall k :: 0 <= k < |l.exhausted| ==> DomainOk(l.rows, l.exhausted[k]))
  }

  lemma FaithfulAfterPublish(l: Line, i: nat, o: Outcome)
    requires LineOk(l) && Possible(l, Publish(i, o))
    ensures LineOk(PublishStep(l, i, o))
  {
    var next := PublishStep(l, i, o);
    assert forall j :: 0 <= j < |l.rows| ==> next.rows[j].event == l.rows[j].event;
    assert forall s, n :: RowFaithful(l.rows, s, n) ==> RowFaithful(next.rows, s, n);
  }

  lemma RouteKeepsLine(l: Line, k: nat, added: nat, threw: bool)
    requires LineOk(l) && Possible(l, Route(k, added, threw))
    ensures LineOk(RouteStep(l, k, added, threw))
  {
    var next, job := RouteStep(l, k, added, threw), l.domain[k];
    assert DomainOk(l.rows, job);
    forall j | 0 <= j < |next.mail|
      ensures MailOk(next.rows, next.mail[j])
    {
      if j >= |l.mail| {
        assert next.mail[j].notice == FanOut(job.event)[j - |l.mail|];
      }
    }
  }

  lemma SendKeepsLine(l: Line, k: nat, ok: bool, deadAccepted: bool)
    requires LineOk(l) && k < |l.mail|
    ensures LineOk(SendStep(l, k, ok, deadAccepted))
  {
    assert MailOk(l.rows, l.mail[k]);
  }

  lemma BuryKeepsLine(l: Line, k: nat, accepted: bool)
    requires LineOk(l) && k < |l.dead|
    ensures LineOk(BuryStep(l, k, accepted))
  {
    assert DeadOk(l.rows, l.dead[k]);
  }

  lemma AdvanceKeepsLine(l: Line, e: Event)
    requires LineOk(l) && Possible(l, e)
    ensures LineOk(Advance(l, e))
  {
    match e
    case Publish(i, o) => FaithfulAfterPublish(l, i, o);
    case Route(k, added, threw) => RouteKeepsLine(l, k, added, threw);
    case Send(k, ok, deadAccepted) => SendKeepsLine(l, k, ok, deadAccepted);
    case Bury(k, accepted) => BuryKeepsLine(l, k, accepted);
  }

  /** What a step has used up, it has taken from the budget, but for what is unpaid. */
  predicate Within(g: Gauge, l: Line, next: Line, unpaid: nat) {
    Used(g, next) + Budget(g, next) <= Used(g, l) + Budget(g, l) + unpaid
  }

  lemma PublishWithin(g: Gauge, l: Line, i: nat, o: Outcome)
    requires Possible(l, Publish(i, o))
    ensures Within(g, l, Advance(l, Publish(i, o)), Unpaid(g, l, Publish(i, o)))
  {
    hide Budget, Unpaid;
    PublishBudget(g, l, i, o);
    BudgetIgnoresSteps(g, PublishStep(l, i, o), l.steps + 1);
  }

  lemma RouteWithin(g: Gauge, l: Line, k: nat, added: nat, threw: bool)
    requires Possible(l, Route(k, added, threw)) && l.domain[k].attemptsMade < ATTEMPTS
    ensures Within(g, l, Advance(l, Route(k, added, threw)), 0)
  {
    hide Budget, StartedBy, FanOut, NewMail, NewTags, Without;
    RouteBudget(g, l, k, added, threw);
    BudgetIgnoresSteps(g, RouteStep(l, k, added, threw), l.steps + 1);
  }

  lemma SendWithin(g: Gauge, l: Line, k: nat, ok: bool, deadAccepted: bool)
    requires k < |l.mail| && l.mail[k].attemptsMade < ATTEMPTS
    ensures Within(g, l, Advance(l, Send(k, ok, deadAccepted)), 0)
  {
    hide Budget, Without;
    SendBudget(g, l, k, ok, deadAccepted);
    BudgetIgnoresSteps(g, SendStep(l, k, ok, deadAccepted), l.steps + 1);
  }

  lemma BuryWithin(g: Gauge, l: Line, k: nat, accepted: bool)
    requires k < |l.dead|
    ensures Within(g, l, Advance(l, Bury(k, accepted)), 0)
  {
    hide Budget;
    BuryBudget(g, l, k, accepted);
    BudgetIgnoresSteps(g, BuryStep(l, k, accepted), l.steps + 1);
  }

  lemma AdvanceWithinBudget(g: Gauge, l: Line, e: Event)
    requires LineOk(l) && Possible(l, e)
    ensures Within(g, l, Advance(l, e), Unpaid(g, l, e))
  {
    hide Within, Advance;
    match e
    case Publish(i, o) => PublishWithin(g, l, i, o);
    case Route(k, added, threw) =>
      assert DomainOk(l.rows, l.domain[k]);
      RouteWithin(g, l, k, added, threw);
    case Send(k, ok, deadAccepted) =>
      assert MailOk(l.rows, l.mail[k]);
      SendWithin(g, l, k, ok, deadAccepted);
    case Bury(k, accepted) => BuryWithin(g, l, k, accepted);
  }

  lemma BudgetIgnoresSteps(g: Gauge, l: Line, steps: nat)
    ensures Budget(g, l.(steps := steps)) == Budget(g, l)
  {
  }

  lemma {:induction false} FlowKeepsLine(l: Line, events: seq<Event>)
    requires LineOk(l)
    ensures Flow(l, events).Some? ==> LineOk(Flow(l, events).value)
    decreases |events|
  {
    hide LineOk, Advance;
    if events == [] {
    } else if Possible(l, events[0]) {
      AdvanceKeepsLine(l, events[0]);
      FlowKeepsLine(Advance(l, events[0]), events[1..]);
    }
  }

  lemma {:induction false} FlowWithinBudget(g: Gauge, l: Line, events: seq<Event>)
    requires LineOk(l)
    ensures Flow(l, events).Some? ==>
      var end := Flow(l, events).value;
      Used(g, end) + Budget(g, end) <= Used(g, l) + Budget(g, l) + UnpaidIn(g, l, events)
    decreases |events|
  {
    hide Budget, Used, LineOk, Advance, Unpaid;
    if events == [] {
    } else if Possible(l, events[0]) {
      AdvanceKeepsLine(l, events[0]);
      AdvanceWithinBudget(g, l, events[0]);
      FlowWithinBudget(g, Advance(l, events[0]), events[1..]);
    }
  }
}
