/** Delivery status of email jobs, driven by provider webhooks that may be replayed, come out of
    order, or arrive before the worker has recorded the job as sent. */
module Delivery {
  import opened Common

  type JobId = nat
  type WebhookId = string
  type MessageId = string

  datatype Status = Pending | Accepted | Delayed | Delivered | Bounced | Failed | Suppressed | Complained
  datatype Job = Job(message: Option<MessageId>, status: Status, eventAt: Option<Time>)

  /** `status` is absent for event types the service does not track. */
  datatype Webhook = Webhook(id: WebhookId, message: MessageId, job: Option<JobId>, occurredAt: Time, status: Option<Status>)

  datatype Tracked = Tracked(jobs: map<JobId, Job>, seen: set<WebhookId>)

  datatype Reply = Duplicate | Unmatched | Ignored(job: JobId) | Updated(job: JobId) | ForeignKeyViolation

  // ---- the transition rule ----

  predicate Terminal(s: Status) { s == Bounced || s == Failed || s == Suppressed || s == Complained }

  predicate CanApply(current: Status, next: Status, currentAt: Option<Time>, nextAt: Time) {
    && current != next && (currentAt.Some? ==> currentAt.value < nextAt)
    && match current
       case Pending => true
       case Accepted => next == Delayed || next == Delivered || Terminal(next)
       case Delayed => next == Delivered || Terminal(next)
       case Delivered => next == Complained
       case _ => false
  }

  function Rank(s: Status): nat {
    match s
    case Pending => 0
    case Accepted => 1
    case Delayed => 2
    case Delivered => 3
    case _ => 4
  }

  // ---- which job a webhook is about ----

  datatype Match = Found(job: JobId) | NoJob | UnknownJob

  predicate Sends(jobs: map<JobId, Job>, j: JobId, m: MessageId) { j in jobs && jobs[j].message == Some(m) }

  ghost predicate MessagesUnique(jobs: map<JobId, Job>) { forall j, k, m | Sends(jobs, j, m) && Sends(jobs, k, m) :: j == k }

  /** First by provider message ID; otherwise by the job the event is tagged with, unless that job is
      known to have sent a different message. */
  ghost function Find(jobs: map<JobId, Job>, w: Webhook): Match {
    if exists j :: Sends(jobs, j, w.message) then
      var j :| Sends(jobs, j, w.message); Found(j)
    else if w.job.None? then NoJob
    else if w.job.value !in jobs then UnknownJob
    else if jobs[w.job.value].message.Some? then NoJob
    else Found(w.job.value)
  }

  // ---- the two operations ----

  function Applied(job: Job, w: Webhook): Job
    requires w.status.Some?
  {
    Job(if job.message.Some? then job.message else Some(w.message), w.status.value, Some(w.occurredAt))
  }

  ghost function Process(s: Tracked, w: Webhook): (Tracked, Reply) {
    var found := Find(s.jobs, w);
    if w.id in s.seen then (s, Duplicate)
    else if found == UnknownJob then (s, ForeignKeyViolation)
    else
      var s' := s.(seen := s.seen + {w.id});
      if found == NoJob then (s', Unmatched)
      else
        var j := found.job;
        if j in s.jobs && w.status.Some? && CanApply(s.jobs[j].status, w.status.value, s.jobs[j].eventAt, w.occurredAt)
        then (s'.(jobs := s.jobs[j := Applied(s.jobs[j], w)]), Updated(j))
        else (s', Ignored(j))
  }

  function Sent(job: Job, m: MessageId): Job {
    Job(Some(m), if job.eventAt.None? then Accepted else job.status, job.eventAt)
  }

  /** The unique index refuses a message ID that another job already has. */
  function MarkSent(s: Tracked, j: JobId, m: MessageId): Tracked {
    if j in s.jobs && (forall k | k in s.jobs && k != j :: !Sends(s.jobs, k, m)) then s.(jobs := s.jobs[j := Sent(s.jobs[j], m)]) else s
  }

  class EmailDelivery {
    var jobs: map<JobId, Job>
    var seen: set<WebhookId>

    constructor ()
      ensures State() == Tracked(map[], {})
    {
      jobs, seen := map[], {};
    }

    function State(): Tracked
      reads this
    {
      Tracked(jobs, seen)
    }

    method FindJob(w: Webhook) returns (found: Match)
      requires MessagesUnique(jobs)
      ensures found == Find(jobs, w) && (found.Found? ==> found.job in jobs)
    {
      var senders := set j | j in jobs && jobs[j].message == Some(w.message);
      if senders != {} {
        var j :| j in senders;
        assert Sends(jobs, j, w.message);
        return Found(j);
      }
      assert forall j :: Sends(jobs, j, w.message) ==> j in senders;
      if w.job.None? { return NoJob; }
      if w.job.value !in jobs { return UnknownJob; }
      if jobs[w.job.value].message.Some? && jobs[w.job.value].message.value != w.message { return NoJob; }
      assert !Sends(jobs, w.job.value, w.message);
      return Found(w.job.value);
    }

    method ProcessEmailDeliveryEventTx(w: Webhook) returns (reply: Reply)
      requires MessagesUnique(jobs)
      modifies this
      ensures (State(), reply) == Process(old(State()), w)
    {
      var found := FindJob(w);
      if w.id in seen { return Duplicate; }
      if found == UnknownJob { return ForeignKeyViolation; }
      seen := seen + {w.id};
      if found == NoJob { return Unmatched; }
      var j := found.job;
      if w.status.None? { return Ignored(j); }
      var job := jobs[j];
      if !CanApply(job.status, w.status.value, job.eventAt, w.occurredAt) { return Ignored(j); }
      // the UPDATE repeats the check on the time of the last event
      if job.eventAt.Some? && !(job.eventAt.value < w.occurredAt) { return Ignored(j); }
      jobs := jobs[j := Applied(job, w)];
      return Updated(j);
    }

    method MarkEmailJobSent(j: JobId, m: MessageId) returns (written: bool)
      modifies this
      ensures State() == MarkSent(old(State()), j, m)
      ensures written ==> j in jobs && jobs[j].message == Some(m)
    {
      if j !in jobs || exists k | k in jobs && k != j :: Sends(jobs, k, m) { return false; }
      jobs := jobs[j := Sent(jobs[j], m)];
      return true;
    }
  }

  // ---- runs ----

  datatype Step = NewJob(job: JobId) | Receive(webhook: Webhook) | RecordSent(job: JobId, message: MessageId)

  ghost function Do(s: Tracked, step: Step): Tracked {
    match step
    case NewJob(j) => if j in s.jobs then s else s.(jobs := s.jobs[j := Job(None, Pending, None)])
    case Receive(w) => Process(s, w).0
    case RecordSent(j, m) => MarkSent(s, j, m)
  }

  ghost function Run(s: Tracked, steps: seq<Step>): Tracked {
    if steps == [] then s else Do(Run(s, steps[..|steps| - 1]), steps[|steps| - 1])
  }

  /** Before the first event a job is pending or, once sent, accepted; message IDs stay unique. */
  ghost predicate Inv(s: Tracked) {
    && MessagesUnique(s.jobs)
    && (forall j | j in s.jobs :: s.jobs[j].eventAt.None? ==> s.jobs[j].status == Pending || s.jobs[j].status == Accepted)
  }

  /** The status stays or climbs strictly, and so does the time of the last event. */
  ghost predicate Climbs(job: Job, job': Job) {
    && (job'.status == job.status || Rank(job.status) < Rank(job'.status))
    && (job'.eventAt == job.eventAt || (job'.eventAt.Some? && (job.eventAt.Some? ==> job.eventAt.value < job'.eventAt.value)))
  }

  lemma TransitionsClimb(current: Status, next: Status, currentAt: Option<Time>, nextAt: Time)
    requires CanApply(current, next, currentAt, nextAt)
    ensures Rank(current) < Rank(next) && !Terminal(current)
  {}

  /** The rule without its table: a later event of higher rank, except that only a complaint follows delivery. */
  lemma TransitionRule(current: Status, next: Status, currentAt: Option<Time>, nextAt: Time)
    ensures CanApply(current, next, currentAt, nextAt) <==>
            && (currentAt.Some? ==> currentAt.value < nextAt)
            && Rank(current) < Rank(next) && (current == Delivered ==> next == Complained)
  {}

  /** The webhook is about job `j`: the job sent its message, or nobody is known to have, the event is tagged with
      the job and the job has sent no message yet. */
  ghost predicate IsAbout(jobs: map<JobId, Job>, w: Webhook, j: JobId) {
    && j in jobs
    && (jobs[j].message == Some(w.message)
        || ((forall k | k in jobs :: jobs[k].message != Some(w.message)) && w.job == Some(j) && jobs[j].message == None))
  }

  ghost predicate NobodySent(jobs: map<JobId, Job>, w: Webhook) { forall k | k in jobs :: jobs[k].message != Some(w.message) }

  lemma FindIsExact(jobs: map<JobId, Job>, w: Webhook, j: JobId)
    requires MessagesUnique(jobs)
    ensures Find(jobs, w) == Found(j) <==> IsAbout(jobs, w, j)
    ensures Find(jobs, w) == UnknownJob <==> NobodySent(jobs, w) && w.job.Some? && w.job.value !in jobs
  {
    if IsAbout(jobs, w, j) && jobs[j].message == Some(w.message) {
      assert Sends(jobs, j, w.message);
    }
    if k :| k in jobs && jobs[k].message == Some(w.message) {
      assert Sends(jobs, k, w.message);
    }
  }

  lemma FindIsSound(jobs: map<JobId, Job>, w: Webhook)
    ensures var found := Find(jobs, w);
            found.Found? ==> found.job in jobs && (Sends(jobs, found.job, w.message) || (w.job == Some(found.job) && jobs[found.job].message.None?))
    ensures Find(jobs, w) == NoJob || Find(jobs, w) == UnknownJob ==> forall j :: !Sends(jobs, j, w.message)
  {}

  lemma ProcessKeeps(s: Tracked, w: Webhook)
    requires Inv(s)
    ensures Inv(Process(s, w).0)
    ensures forall j | j in s.jobs :: j in Process(s, w).0.jobs && Climbs(s.jobs[j], Process(s, w).0.jobs[j])
  {
    FindIsSound(s.jobs, w);
    var s', reply := Process(s, w).0, Process(s, w).1;
    if reply.Updated? {
      var j := reply.job;
      forall k, l, m | Sends(s'.jobs, k, m) && Sends(s'.jobs, l, m)
        ensures k == l
      {
        assert k != j ==> Sends(s.jobs, k, m);
        assert l != j ==> Sends(s.jobs, l, m);
      }
    }
  }

  lemma MarkSentKeeps(s: Tracked, j: JobId, m: MessageId)
    requires Inv(s)
    ensures Inv(MarkSent(s, j, m))
    ensures forall k | k in s.jobs :: k in MarkSent(s, j, m).jobs && Climbs(s.jobs[k], MarkSent(s, j, m).jobs[k])
  {
    var s' := MarkSent(s, j, m);
    forall k, l, x | Sends(s'.jobs, k, x) && Sends(s'.jobs, l, x)
      ensures k == l
    {
      assert k != j ==> Sends(s.jobs, k, x);
      assert l != j ==> Sends(s.jobs, l, x);
    }
  }

  lemma StepKeeps(s: Tracked, step: Step)
    requires Inv(s)
    ensures Inv(Do(s, step)) && s.seen <= Do(s, step).seen
    ensures forall j | j in s.jobs :: j in Do(s, step).jobs && Climbs(s.jobs[j], Do(s, step).jobs[j])
  {
    match step
    case Receive(w) => ProcessKeeps(s, w);
    case RecordSent(j, m) => MarkSentKeeps(s, j, m);
    case NewJob(j) =>
      var s' := Do(s, step);
      assert forall k, m :: Sends(s'.jobs, k, m) ==> Sends(s.jobs, k, m);
  }

  lemma {:induction false} RunKeeps(s: Tracked, steps: seq<Step>)
    requires Inv(s)
    ensures Inv(Run(s, steps)) && s.seen <= Run(s, steps).seen
    ensures forall j | j in s.jobs :: j in Run(s, steps).jobs
  {
    if steps != [] {
      RunKeeps(s, steps[..|steps| - 1]);
      StepKeeps(Run(s, steps[..|steps| - 1]), steps[|steps| - 1]);
    }
  }

  /** How often a job's delivery status changes in a run. */
  ghost function Changes(s: Tracked, steps: seq<Step>, j: JobId): nat {
    if steps == [] then 0
    else
      var before, after := Run(s, steps[..|steps| - 1]), Run(s, steps);
      Changes(s, steps[..|steps| - 1], j)
      + if j in before.jobs && j in after.jobs && before.jobs[j].status != after.jobs[j].status then 1 else 0
  }

  /** Over any run every change climbs, so a job's status changes at most four times. */
  lemma {:induction false} AtMostFourChanges(s: Tracked, steps: seq<Step>, j: JobId)
    requires Inv(s) && j in s.jobs
    ensures j in Run(s, steps).jobs && Rank(s.jobs[j].status) + Changes(s, steps, j) <= Rank(Run(s, steps).jobs[j].status) <= 4
  {
    if steps != [] {
      AtMostFourChanges(s, steps[..|steps| - 1], j);
      RunKeeps(s, steps[..|steps| - 1]);
      StepKeeps(Run(s, steps[..|steps| - 1]), steps[|steps| - 1]);
    }
  }

  /** A webhook changes a job exactly when it is new, is about that job, comes later than the job's last event and
      moves its status up, delivered jobs by a complaint alone. It then sets the status and its own time, and the
      message if none was known; every other job stays as it was. */
  lemma WebhookEffect(s: Tracked, w: Webhook, j: JobId)
    requires Inv(s) && j in s.jobs
    ensures Process(s, w).0.jobs.Keys == s.jobs.Keys
    ensures var job, job' := s.jobs[j], Process(s, w).0.jobs[j];
            if w.id !in s.seen && IsAbout(s.jobs, w, j) && w.status.Some? && (job.eventAt.Some? ==> job.eventAt.value < w.occurredAt)
               && Rank(job.status) < Rank(w.status.value) && (job.status == Delivered ==> w.status.value == Complained)
            then job' == Job(if job.message.Some? then job.message else Some(w.message), w.status.value, Some(w.occurredAt))
            else job' == job
  {
    FindIsSound(s.jobs, w);
    FindIsExact(s.jobs, w, j);
    if w.status.Some? {
      TransitionRule(s.jobs[j].status, w.status.value, s.jobs[j].eventAt, w.occurredAt);
    }
  }

  /** What each webhook is answered, and that its ID is remembered unless it names an unknown job. */
  lemma WebhookReply(s: Tracked, w: Webhook)
    requires Inv(s)
    ensures var s', reply := Process(s, w).0, Process(s, w).1;
      && (reply == Duplicate <==> w.id in s.seen)
      && (reply == ForeignKeyViolation <==> w.id !in s.seen && NobodySent(s.jobs, w) && w.job.Some? && w.job.value !in s.jobs)
      && (reply.Ignored? || reply.Updated? ==> IsAbout(s.jobs, w, reply.job))
      && (reply == Unmatched <==> w.id !in s.seen && reply != ForeignKeyViolation && forall j | j in s.jobs :: !IsAbout(s.jobs, w, j))
      && (reply.Updated? <==> s'.jobs != s.jobs)
      && s'.seen == if reply == ForeignKeyViolation then s.seen else s.seen + {w.id}
  {
    FindIsSound(s.jobs, w);
    forall j ensures Find(s.jobs, w) == Found(j) <==> IsAbout(s.jobs, w, j) {
      FindIsExact(s.jobs, w, j);
    }
    FindIsExact(s.jobs, w, 0);
    var s', reply := Process(s, w).0, Process(s, w).1;
    if reply.Updated? {
      assert s'.jobs[reply.job].status != s.jobs[reply.job].status;
    }
  }

  /** Recording a send sets the message, keeps what events have already set, and is refused exactly when another job
      has sent that message. */
  lemma SentEffect(s: Tracked, j: JobId, m: MessageId)
    requires j in s.jobs
    ensures var s', job := MarkSent(s, j, m), s.jobs[j];
      s' == if exists k | k in s.jobs && k != j :: s.jobs[k].message == Some(m) then s
            else s.(jobs := s.jobs[j := Job(Some(m), if job.eventAt == None then Accepted else job.status, job.eventAt)])
  {
    if k :| k in s.jobs && k != j && s.jobs[k].message == Some(m) {
      assert Sends(s.jobs, k, m);
    }
  }

  /** Replaying a webhook ID, at any later time and with any content, changes nothing. */
  lemma ReplayChangesNothing(s: Tracked, w: Webhook, steps: seq<Step>, again: Webhook)
    requires Inv(s) && Process(s, w).1 != ForeignKeyViolation && again.id == w.id
    ensures var later := Run(Process(s, w).0, steps); Process(later, again) == (later, Duplicate)
  {
    ProcessKeeps(s, w);
    RunKeeps(Process(s, w).0, steps);
  }

  /** The worker records the job as sent, and the first webhook about it arrives, in either order. */
  ghost function SentThenWebhook(s: Tracked, w: Webhook, j: JobId): Tracked { Process(MarkSent(s, j, w.message), w).0 }
  ghost function WebhookThenSent(s: Tracked, w: Webhook, j: JobId): Tracked { MarkSent(Process(s, w).0, j, w.message) }

  ghost predicate FirstWebhook(s: Tracked, w: Webhook, j: JobId) {
    && j in s.jobs && s.jobs[j] == Job(None, Pending, None) && w.job == Some(j) && w.id !in s.seen
    && forall k :: !Sends(s.jobs, k, w.message)
  }

  lemma SentThenWebhookIs(s: Tracked, w: Webhook, j: JobId)
    requires FirstWebhook(s, w, j)
    ensures var sent := Job(Some(w.message), Accepted, None);
            SentThenWebhook(s, w, j) == Tracked(
              s.jobs[j := if w.status.Some? && CanApply(Accepted, w.status.value, None, w.occurredAt) then Applied(sent, w) else sent],
              s.seen + {w.id})
  {
    var sent := MarkSent(s, j, w.message);
    assert sent.jobs == s.jobs[j := Job(Some(w.message), Accepted, None)];
    assert Sends(sent.jobs, j, w.message);
    assert forall k | k != j :: Sends(sent.jobs, k, w.message) ==> Sends(s.jobs, k, w.message);
    assert Find(sent.jobs, w) == Found(j);
  }

  lemma WebhookThenSentIs(s: Tracked, w: Webhook, j: JobId)
    requires FirstWebhook(s, w, j)
    ensures var job := Job(None, Pending, None);
            WebhookThenSent(s, w, j) == Tracked(
              s.jobs[j := Sent(if w.status.Some? && w.status.value != Pending then Applied(job, w) else job, w.message)],
              s.seen + {w.id})
  {
    var processed := Process(s, w).0;
    assert Find(s.jobs, w) == Found(j);
    assert forall k | k in processed.jobs && k != j :: !Sends(processed.jobs, k, w.message) by {
      assert forall k | k != j :: Sends(processed.jobs, k, w.message) ==> Sends(s.jobs, k, w.message);
    }
  }

  /** The order does not matter exactly when the webhook does not report `accepted`. */
  lemma OrderMattersOnlyForAccepted(s: Tracked, w: Webhook, j: JobId)
    requires FirstWebhook(s, w, j)
    ensures SentThenWebhook(s, w, j) == WebhookThenSent(s, w, j) <==> w.status != Some(Accepted)
  {
    SentThenWebhookIs(s, w, j);
    WebhookThenSentIs(s, w, j);
    if w.status == Some(Accepted) {
      assert SentThenWebhook(s, w, j).jobs[j].eventAt == None && WebhookThenSent(s, w, j).jobs[j].eventAt == Some(w.occurredAt);
    }
  }

  /** For `accepted` the two orders agree on the status and the message, and differ in the time of the last event. */
  lemma AcceptedTwoWays(s: Tracked, w: Webhook, j: JobId)
    requires FirstWebhook(s, w, j) && w.status == Some(Accepted)
    ensures SentThenWebhook(s, w, j).jobs[j] == Job(Some(w.message), Accepted, None)
    ensures WebhookThenSent(s, w, j).jobs[j] == Job(Some(w.message), Accepted, Some(w.occurredAt))
  {
    SentThenWebhookIs(s, w, j);
    WebhookThenSentIs(s, w, j);
  }
}
