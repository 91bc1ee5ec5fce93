/** Every send attempt is accounted for: by the failures of the jobs there are, and by deliveries. */
module PipelineTally {
  import opened Rows
  import opened Pipeline
  import opened PipelineBounds

  /** All rows, or one of them. */
  predicate Concerns(who: Option<nat>, source: nat) {
    who.None? || who.value == source
  }

  function SendsOf(who: Option<nat>, sends: seq<nat>): nat {
    if who.None? then |sends| else multiset(sends)[who.value]
  }

  /** The sends behind each job: its failures, and one more if it was delivered. */
  function MailTally(who: Option<nat>, done: nat, jobs: seq<MailJob>): seq<nat> {
    seq(|jobs|, i requires 0 <= i < |jobs| => MailSends(who, done, jobs[i]))
  }

  function MailSends(who: Option<nat>, done: nat, job: MailJob): nat {
    if Concerns(who, job.source) then job.failures + done else 0
  }

  function DeadTally(who: Option<nat>, jobs: seq<DeadJob>): seq<nat> {
    seq(|jobs|, i requires 0 <= i < |jobs| => DeadSends(who, jobs[i]))
  }

  function DeadSends(who: Option<nat>, job: DeadJob): nat {
    if Concerns(who, job.source) then job.failures else 0
  }

  ghost predicate Tallied(who: Option<nat>, l: Line) {
    SendsOf(who, l.sends) == Sum(MailTally(who, 0, l.mail)) + Sum(DeadTally(who, l.dead))
                             + Sum(MailTally(who, 1, l.delivered))
                             + Sum(DeadTally(who, l.dropped)) + Sum(DeadTally(who, l.lost))
  }

  lemma OneMoreSend(who: Option<nat>, sends: seq<nat>, source: nat)
    ensures SendsOf(who, sends + [source]) == SendsOf(who, sends) + if Concerns(who, source) then 1 else 0
  {
    assert multiset(sends + [source]) == multiset(sends) + multiset{source};
  }

  lemma MailTaken(who: Option<nat>, done: nat, jobs: seq<MailJob>, k: nat)
    requires k < |jobs|
    ensures Sum(MailTally(who, done, jobs))
         == Sum(MailTally(who, done, Without(jobs, k))) + MailSends(who, done, jobs[k])
  {
    SumAt(MailTally(who, done, jobs), k);
    hide Sum, MailSends;
    assert MailTally(who, done, Without(jobs, k)) == Without(MailTally(who, done, jobs), k);
  }

  lemma MailReplaced(who: Option<nat>, done: nat, jobs: seq<MailJob>, k: nat, job: MailJob)
    requires k < |jobs|
    ensures Sum(MailTally(who, done, jobs[k := job])) + MailSends(who, done, jobs[k])
         == Sum(MailTally(who, done, jobs)) + MailSends(who, done, job)
  {
    SumPut(MailTally(who, done, jobs), k, MailSends(who, done, job));
    hide Sum, MailSends;
    assert MailTally(who, done, jobs[k := job]) == MailTally(who, done, jobs)[k := MailSends(who, done, job)];
  }

  lemma MailPutIn(who: Option<nat>, done: nat, jobs: seq<MailJob>, job: MailJob)
    ensures Sum(MailTally(who, done, jobs + [job])) == Sum(MailTally(who, done, jobs)) + MailSends(who, done, job)
  {
    SumSnoc(MailTally(who, done, jobs), MailSends(who, done, job));
    hide Sum, MailSends;
    assert MailTally(who, done, jobs + [job]) == MailTally(who, done, jobs) + [MailSends(who, done, job)];
  }

  lemma DeadTaken(who: Option<nat>, jobs: seq<DeadJob>, k: nat)
    requires k < |jobs|
    ensures Sum(DeadTally(who, jobs)) == Sum(DeadTally(who, Without(jobs, k))) + DeadSends(who, jobs[k])
  {
    SumAt(DeadTally(who, jobs), k);
    hide Sum, DeadSends;
    assert DeadTally(who, Without(jobs, k)) == Without(DeadTally(who, jobs), k);
  }

  lemma DeadPutIn(who: Option<nat>, jobs: seq<DeadJob>, job: DeadJob)
    ensures Sum(DeadTally(who, jobs + [job])) == Sum(DeadTally(who, jobs)) + DeadSends(who, job)
  {
    SumSnoc(DeadTally(who, jobs), DeadSends(who, job));
    hide Sum, DeadSends;
    assert DeadTally(who, jobs + [job]) == DeadTally(who, jobs) + [DeadSends(who, job)];
  }

  /** New notifications have no sends behind them. */
  lemma {:induction false} NewMailUnsent(who: Option<nat>, jobs: seq<MailJob>, source: nat, notices: seq<Notice>)
    ensures Sum(MailTally(who, 0, jobs + NewMail(source, notices))) == Sum(MailTally(who, 0, jobs))
  {
    if notices == [] {
      assert jobs + NewMail(source, notices) == jobs;
    } else {
      var n := |notices| - 1;
      var last := MailJob(source, notices[n], 0, 0, 0);
      NewMailUnsent(who, jobs, source, notices[..n]);
      MailPutIn(who, 0, jobs + NewMail(source, notices[..n]), last);
      assert jobs + NewMail(source, notices) == jobs + NewMail(source, notices[..n]) + [last];
    }
  }

  lemma SendTallies(who: Option<nat>, l: Line, k: nat, ok: bool, deadAccepted: bool)
    requires Tallied(who, l) && k < |l.mail|
    ensures Tallied(who, SendStep(l, k, ok, deadAccepted))
  {
    hide Sum, MailTally, DeadTally, SendsOf, Without;
    var job := l.mail[k];
    OneMoreSend(who, l.sends, job.source);
    if ok {
      MailTaken(who, 0, l.mail, k);
      MailPutIn(who, 1, l.delivered, job);
    } else if job.attemptsMade + 1 < ATTEMPTS {
      MailReplaced(who, 0, l.mail, k, Retried(job));
    } else {
      MailTaken(who, 0, l.mail, k);
      if deadAccepted {
        DeadPutIn(who, l.dead, DeadOf(job));
      } else {
        DeadPutIn(who, l.lost, DeadOf(job));
      }
    }
  }

  lemma BuryTallies(who: Option<nat>, l: Line, k: nat, accepted: bool)
    requires Tallied(who, l) && k < |l.dead|
    ensures Tallied(who, BuryStep(l, k, accepted))
  {
    hide Sum, MailTally, DeadTally, SendsOf, Without;
    var job := l.dead[k];
    DeadTaken(who, l.dead, k);
    if job.dlqCount >= MAX_DLQ_REPROCESS {
      DeadPutIn(who, l.dropped, job);
    } else if accepted {
      MailPutIn(who, 0, l.mail, Revived(job));
    } else {
      DeadPutIn(who, l.lost, job);
    }
  }

  lemma AdvanceTallies(who: Option<nat>, l: Line, e: Event)
    requires Tallied(who, l) && Possible(l, e)
    ensures Tallied(who, Advance(l, e))
  {
    hide Sum, MailTally, DeadTally, SendsOf, NewMail, NewTags, FanOut, Without;
    match e
    case Publish(_, _) =>
    case Route(k, added, threw) => NewMailUnsent(who, l.mail, l.domain[k].source, FanOut(l.domain[k].event)[..added]);
    case Send(k, ok, deadAccepted) => SendTallies(who, l, k, ok, deadAccepted);
    case Bury(k, accepted) => BuryTallies(who, l, k, accepted);
  }

  lemma {:induction false} FlowTallies(who: Option<nat>, l: Line, events: seq<Event>)
    requires Tallied(who, l)
    ensures Flow(l, events).Some? ==> Tallied(who, Flow(l, events).value)
    decreases |events|
  {
    hide Tallied, Advance;
    if events == [] {
    } else if Possible(l, events[0]) {
      AdvanceTallies(who, l, events[0]);
      FlowTallies(who, Advance(l, events[0]), events[1..]);
    }
  }

  /** The history counters are real: in every flow the sends, of all rows or of any one, are the
      failures of the jobs wherever they are, plus one per delivery. */
  lemma SendsAccounted(who: Option<nat>, l: Line, events: seq<Event>)
    requires Untouched(l)
    ensures Flow(l, events).Some? ==> Tallied(who, Flow(l, events).value)
  {
    assert MailTally(who, 0, []) == [] && MailTally(who, 1, []) == [] && DeadTally(who, []) == [];
    assert Tallied(who, l);
    FlowTallies(who, l, events);
  }

  // ---- Sends per notification ----

  /** What is used up and what may still be used stays within 12 sends per initial notification. */
  ghost predicate OnAccount(l: Line, source: nat) {
    multiset(l.sends)[source] + Sum(MailWeights(Sends(source), l.mail)) + Sum(DeadWeights(Sends(source), l.dead))
    <= ATTEMPTS * GENERATIONS * StartedBy(l.started, source)
  }

  lemma RouteOnAccount(l: Line, k: nat, added: nat, threw: bool, source: nat)
    requires OnAccount(l, source) && Possible(l, Route(k, added, threw))
    ensures OnAccount(RouteStep(l, k, added, threw), source)
  {
    hide Sum, MailWeights, DeadWeights, NewMail, NewTags, FanOut, StartedBy, Without;
    var g, job := Sends(source), l.domain[k];
    var notices := FanOut(job.event)[..added];
    NewMailWeight(g, job.source, notices);
    StartedCount(l.started, notices, job.source, source);
    MailJoined(g, l.mail, NewMail(job.source, notices));
  }

  lemma MailJoined(g: Gauge, a: seq<MailJob>, b: seq<MailJob>)
    ensures Sum(MailWeights(g, a + b)) == Sum(MailWeights(g, a)) + Sum(MailWeights(g, b))
  {
    SumConcat(MailWeights(g, a), MailWeights(g, b));
    hide Sum, MailWeight;
    assert MailWeights(g, a + b) == MailWeights(g, a) + MailWeights(g, b);
  }

  lemma SendOnAccount(l: Line, k: nat, ok: bool, deadAccepted: bool, source: nat)
    requires OnAccount(l, source) && k < |l.mail| && l.mail[k].attemptsMade < ATTEMPTS
    ensures OnAccount(SendStep(l, k, ok, deadAccepted), source)
  {
    SendBudget(Sends(source), l, k, ok, deadAccepted);
    OneMoreSend(Some(source), l.sends, l.mail[k].source);
    hide Sum, RowWeights, DomainWeights, MailWeights, DeadWeights, StartedBy, Without;
  }

  lemma BuryOnAccount(l: Line, k: nat, accepted: bool, source: nat)
    requires OnAccount(l, source) && k < |l.dead|
    ensures OnAccount(BuryStep(l, k, accepted), source)
  {
    BuryBudget(Sends(source), l, k, accepted);
    hide Sum, RowWeights, DomainWeights, MailWeights, DeadWeights, StartedBy, Without;
  }

  lemma AdvanceOnAccount(l: Line, e: Event, source: nat)
    requires LineOk(l) && OnAccount(l, source) && Possible(l, e)
    ensures OnAccount(Advance(l, e), source)
  {
    hide Sum, MailWeights, DeadWeights, StartedBy;
    match e
    case Publish(_, _) =>
    case Route(k, added, threw) =>
      hide FanOut, NewMail, NewTags, Without;
      RouteOnAccount(l, k, added, threw, source);
    case Send(k, ok, deadAccepted) =>
      assert MailOk(l.rows, l.mail[k]);
      SendOnAccount(l, k, ok, deadAccepted, source);
    case Bury(k, accepted) => BuryOnAccount(l, k, accepted, source);
  }

  lemma {:induction false} FlowOnAccount(l: Line, events: seq<Event>, source: nat)
    requires LineOk(l) && OnAccount(l, source)
    ensures Flow(l, events).Some? ==> OnAccount(Flow(l, events).value, source)
    decreases |events|
  {
    hide OnAccount, LineOk, Advance;
    if events == [] {
    } else if Possible(l, events[0]) {
      AdvanceKeepsLine(l, events[0]);
      AdvanceOnAccount(l, events[0], source);
      FlowOnAccount(Advance(l, events[0]), events[1..], source);
    }
  }

  /** In every flow an initial notification causes at most 12 send attempts: the sends of a row
      never exceed 12 times its initial notifications. */
  lemma OneNotification(l: Line, events: seq<Event>, source: nat)
    requires Untouched(l)
    ensures Flow(l, events).Some? ==>
      var end := Flow(l, events).value;
      multiset(end.sends)[source] <= 12 * StartedBy(end.started, source)
  {
    UntouchedBudget(Sends(source), l);
    assert MailWeights(Sends(source), []) == [] && DeadWeights(Sends(source), []) == [];
    FlowOnAccount(l, events, source);
    hide Flow, Budget, LineOk;
  }
}
