/** The queue processors: what each handler adds to which queue, including the cases in which a
    queue rejects the `add`, and that this is what the pipeline's steps add. */
module Workers {
  import opened Rows
  import opened Pipeline

  /** The data of a notification or domain-event job; `dlqCount` is its `_dlqMeta`, if any. */
  datatype JobData = JobData(eventName: string, payload: Payload, dlqCount: Option<nat>)
  datatype QueuedJob = QueuedJob(name: string, data: JobData)
  datatype DeadData = DeadData(originalQueue: string, originalJobName: string, data: JobData, dlqCount: Option<nat>)

  function CountOr0(count: Option<nat>): nat {
    if count.Some? then count.value else 0
  }

  class Queue<T> {
    var jobs: seq<T>

    constructor ()
      ensures jobs == []
    {
      jobs := [];
    }

    /** Whether the queue took the job is not the caller's to decide. */
    method Add(job: T, accepted: bool) returns (threw: bool)
      modifies this
      ensures threw == !accepted && jobs == if accepted then old(jobs) + [job] else old(jobs)
    {
      if accepted {
        jobs := jobs + [job];
      }
      threw := !accepted;
    }
  }

  function Queued(notice: Notice): QueuedJob {
    QueuedJob(notice.name, JobData(notice.eventName, notice.payload, None))
  }

  function QueuedAll(notices: seq<Notice>): seq<QueuedJob> {
    seq(|notices|, j requires 0 <= j < |notices| => Queued(notices[j]))
  }

  class DomainEventsProcessor {
    const notificationsQueue: Queue<QueuedJob>

    constructor (queue: Queue<QueuedJob>)
      ensures notificationsQueue == queue
    {
      notificationsQueue := queue;
    }

    /** One attempt at a domain job: the notifications of its event in order, up to the first
        that the queue rejects. */
    method Process(eventName: string, payload: Payload, accepts: nat -> bool) returns (threw: bool)
      modifies notificationsQueue
      ensures exists added: nat ::
        var notices := FanOut(OutboxEvent(eventName, "", payload));
        && added <= |notices| && (forall j :: 0 <= j < added ==> accepts(j))
        && threw == (added < |notices|) && (threw ==> !accepts(added))
        && notificationsQueue.jobs == old(notificationsQueue.jobs) + QueuedAll(notices[..added])
      // in full: which jobs, under which name, with which data
      ensures eventName == "TransferCompleted" ==>
        var sent := QueuedJob("TransferSent", JobData("TransferSent", payload, None));
        var received := QueuedJob("TransferReceived", JobData("TransferReceived", payload, None));
        && threw == (!accepts(0) || !accepts(1))
        && notificationsQueue.jobs == old(notificationsQueue.jobs)
             + if !accepts(0) then [] else if !accepts(1) then [sent] else [sent, received]
      ensures eventName == "DepositSucceeded" ==>
        var only := QueuedJob("DepositSucceeded", JobData("DepositSucceeded", payload, None));
        && threw == !accepts(0)
        && notificationsQueue.jobs == old(notificationsQueue.jobs) + if accepts(0) then [only] else []
      ensures eventName != "TransferCompleted" && eventName != "DepositSucceeded" ==>
        !threw && notificationsQueue.jobs == old(notificationsQueue.jobs)
    {
      ghost var notices := FanOut(OutboxEvent(eventName, "", payload));
      ghost var before := notificationsQueue.jobs;
      assert before == before + QueuedAll(notices[..0]);
      if eventName == TRANSFER_COMPLETED {
        var first := QueuedJob(TRANSFER_SENT, JobData(TRANSFER_SENT, payload, None));
        threw := notificationsQueue.Add(first, accepts(0));
        if threw {
          return;
        }
        assert QueuedAll(notices[..1]) == [first];
        var second := QueuedJob(TRANSFER_RECEIVED, JobData(TRANSFER_RECEIVED, payload, None));
        threw := notificationsQueue.Add(second, accepts(1));
        assert QueuedAll(notices[..2]) == [first, second];
        assert threw ==> 1 <= |notices|;
        assert !threw ==> notificationsQueue.jobs == before + QueuedAll(notices[..2]);
        return;
      }
      if eventName == DEPOSIT_SUCCEEDED {
        var only := QueuedJob(eventName, JobData(eventName, payload, None));
        threw := notificationsQueue.Add(only, accepts(0));
        assert QueuedAll(notices[..1]) == [only];
        assert !threw ==> notificationsQueue.jobs == before + QueuedAll(notices[..1]);
      } else {
        threw := false;
      }
    }
  }

  predicate AttemptsExhausted(attemptsMade: nat, attempts: Option<nat>) {
    attemptsMade >= if attempts.Some? then attempts.value else 1
  }

  /** What a failed job adds to the dead-letter queue. `attempts` is the job's option, 1 if unset. */
  function MovedToDead(job: QueuedJob, attemptsMade: nat, attempts: Option<nat>, accepted: bool): seq<DeadData> {
    if AttemptsExhausted(attemptsMade, attempts) && accepted
    then [DeadData(NOTIFICATIONS, job.name, job.data, Some(CountOr0(job.data.dlqCount)))] else []
  }

  predicate GoesBack(dead: DeadData) {
    CountOr0(dead.dlqCount) < MAX_DLQ_REPROCESS && dead.originalQueue in {NOTIFICATIONS, DOMAIN_EVENTS}
  }

  /** What a dead job adds to a queue: itself, with its count one higher, to its own. */
  function PutBack(dead: DeadData, queue: string, accepted: bool): seq<QueuedJob> {
    if GoesBack(dead) && dead.originalQueue == queue && accepted
    then [QueuedJob(dead.originalJobName, dead.data.(dlqCount := Some(CountOr0(dead.dlqCount) + 1)))] else []
  }

  class NotificationsProcessor {
    const deadLetterQueue: Queue<DeadData>

    constructor (queue: Queue<DeadData>)
      ensures deadLetterQueue == queue
    {
      deadLetterQueue := queue;
    }

    /** The failed-job listener. */
    method OnFailed(job: QueuedJob, attemptsMade: nat, attempts: Option<nat>, accepted: bool) returns (threw: bool)
      modifies deadLetterQueue
      ensures threw == (AttemptsExhausted(attemptsMade, attempts) && !accepted)
      ensures deadLetterQueue.jobs == old(deadLetterQueue.jobs) + MovedToDead(job, attemptsMade, attempts, accepted)
      ensures
        var last := if attempts == None then attemptsMade >= 1 else attemptsMade >= attempts.value;
        var generation := if job.data.dlqCount == None then 0 else job.data.dlqCount.value;
        && threw == (last && !accepted)
        && deadLetterQueue.jobs == old(deadLetterQueue.jobs)
             + if last && accepted then [DeadData("notifications", job.name, job.data, Some(generation))] else []
    {
      threw := false;
      if attemptsMade >= if attempts.Some? then attempts.value else 1 {
        threw := deadLetterQueue.Add(DeadData(NOTIFICATIONS, job.name, job.data, Some(CountOr0(job.data.dlqCount))),
            accepted);
      }
    }
  }

  class DeadLetterProcessor {
    const notificationsQueue: Queue<QueuedJob>
    const domainEventsQueue: Queue<QueuedJob>

    constructor (notifications: Queue<QueuedJob>, domainEvents: Queue<QueuedJob>)
      ensures notificationsQueue == notifications && domainEventsQueue == domainEvents
    {
      notificationsQueue, domainEventsQueue := notifications, domainEvents;
    }

    method Process(dead: DeadData, accepted: bool) returns (threw: bool)
      requires notificationsQueue != domainEventsQueue
      modifies notificationsQueue, domainEventsQueue
      ensures threw == (GoesBack(dead) && !accepted)
      ensures notificationsQueue.jobs == old(notificationsQueue.jobs) + PutBack(dead, NOTIFICATIONS, accepted)
      ensures domainEventsQueue.jobs == old(domainEventsQueue.jobs) + PutBack(dead, DOMAIN_EVENTS, accepted)
      ensures
        var generation := if dead.dlqCount == None then 0 else dead.dlqCount.value;
        var again := QueuedJob(dead.originalJobName,
                       JobData(dead.data.eventName, dead.data.payload, Some(generation + 1)));
        var toMail := generation < 3 && dead.originalQueue == "notifications";
        var toDomain := generation < 3 && dead.originalQueue == "domain-events";
        && threw == ((toMail || toDomain) && !accepted)
        && notificationsQueue.jobs == old(notificationsQueue.jobs) + (if toMail && accepted then [again] else [])
        && domainEventsQueue.jobs == old(domainEventsQueue.jobs) + (if toDomain && accepted then [again] else [])
    {
      var dlqCount := CountOr0(dead.dlqCount);
      if dlqCount >= MAX_DLQ_REPROCESS {
        return false;
      }
      if dead.originalQueue != NOTIFICATIONS && dead.originalQueue != DOMAIN_EVENTS {
        return false;
      }
      var targetQueue := if dead.originalQueue == NOTIFICATIONS then notificationsQueue else domainEventsQueue;
      threw := targetQueue.Add(QueuedJob(dead.originalJobName, dead.data.(dlqCount := Some(dlqCount + 1))), accepted);
    }
  }

  // ---- The handlers perform the pipeline's steps ----

  /** The queue's view of a notification in the pipeline; the first generation has no meta data. */
  function JobOf(job: MailJob): QueuedJob {
    QueuedJob(job.notice.name,
      JobData(job.notice.eventName, job.notice.payload, if job.dlqCount == 0 then None else Some(job.dlqCount)))
  }

  function DeadDataOf(dead: DeadJob): DeadData {
    DeadData(NOTIFICATIONS, dead.notice.name,
      JobData(dead.notice.eventName, dead.notice.payload, if dead.dlqCount == 0 then None else Some(dead.dlqCount)),
      Some(dead.dlqCount))
  }

  function MailView(jobs: seq<MailJob>): seq<QueuedJob> {
    seq(|jobs|, j requires 0 <= j < |jobs| => JobOf(jobs[j]))
  }

  function DeadView(jobs: seq<DeadJob>): seq<DeadData> {
    seq(|jobs|, j requires 0 <= j < |jobs| => DeadDataOf(jobs[j]))
  }

  /** Routing adds to the notifications queue what `DomainEventsProcessor.Process` adds. */
  lemma RouteAddsNotifications(l: Line, k: nat, added: nat, threw: bool)
    requires Possible(l, Route(k, added, threw))
    ensures MailView(RouteStep(l, k, added, threw).mail)
         == MailView(l.mail) + QueuedAll(FanOut(l.domain[k].event)[..added])
  {
    hide FanOut;
  }

  /** In full: the mail jobs a routing step adds, by the event's name. */
  lemma RouteAdds(l: Line, k: nat, added: nat, threw: bool)
    requires Possible(l, Route(k, added, threw))
    ensures var job := l.domain[k];
      var next := RouteStep(l, k, added, threw);
      var sent := Notice("TransferSent", "TransferSent", job.event.payload);
      var received := Notice("TransferReceived", "TransferReceived", job.event.payload);
      var only := Notice("DepositSucceeded", "DepositSucceeded", job.event.payload);
      var all :=
        if job.event.name == "TransferCompleted" then [sent, received]
        else if job.event.name == "DepositSucceeded" then [only]
        else [];
      && added <= |all| && (!threw ==> added == |all|)
      && |next.mail| == |l.mail| + added && next.mail[..|l.mail|] == l.mail
      && |next.started| == |l.started| + added && next.started[..|l.started|] == l.started
      && (forall j :: 0 <= j < added ==> next.mail[|l.mail| + j] == MailJob(job.source, all[j], 0, 0, 0))
      && (forall j :: 0 <= j < added ==> next.started[|l.started| + j] == Tag(job.source, all[j]))
  {
  }

  /** A failed send adds to the dead-letter queue what `NotificationsProcessor.OnFailed` adds. */
  lemma SendAddsDead(l: Line, k: nat, accepted: bool)
    requires k < |l.mail|
    ensures DeadView(SendStep(l, k, false, accepted).dead)
         == DeadView(l.dead) + MovedToDead(JobOf(l.mail[k]), l.mail[k].attemptsMade + 1, Some(ATTEMPTS), accepted)
  {
    hide Without;
  }

  /** Burying a dead job adds to the queues what `DeadLetterProcessor.Process` adds. */
  lemma BuryPutsBack(l: Line, k: nat, accepted: bool)
    requires k < |l.dead|
    ensures MailView(BuryStep(l, k, accepted).mail)
         == MailView(l.mail) + PutBack(DeadDataOf(l.dead[k]), NOTIFICATIONS, accepted)
    ensures PutBack(DeadDataOf(l.dead[k]), DOMAIN_EVENTS, accepted) == []
  {
    hide Without;
  }
}
