/** The transactional outbox: relays with expiring leases hand email jobs to a task queue. Relays may
    crash at any point, and a slow relay may still mark or release an event it no longer owns. */
module Outbox {
  import opened Common

  /** A job has one outbox event, and its task ID in the queue is the job's ID. */
  type JobId = nat
  type RelayId = nat

  datatype EventStatus = Pending | Publishing | Published
  datatype Event = Event(status: EventStatus, availableAt: Time, claimedUntil: Option<Time>, publishedAt: Option<Time>, attempts: nat)

  /** An event as the claiming query returned it. */
  datatype Claimed = Claimed(job: JobId, attempts: nat)

  /** Where the relay is with the first event of its batch. */
  datatype Stage = Loading | Enqueueing | Marking | Releasing
  datatype Relay = Relay(batch: seq<Claimed>, stage: Stage)

  /** `created` and `accepted` record every job ever created and every task ever accepted; `retained`
      are the task IDs the queue still knows. `lease` is the configured length of a claim. */
  datatype State = State(
    lease: Time, clock: Time, jobs: set<JobId>, events: map<JobId, Event>, relays: map<RelayId, Relay>,
    created: set<JobId>, accepted: set<JobId>, retained: set<JobId>, sent: set<JobId>)

  datatype Reply = Taken | Conflict | Refused | TakenButTimedOut

  datatype Step =
    | Create(job: JobId)
    | Tick(time: Time)
    | Claim(relay: RelayId, batch: seq<JobId>, until: Time)
    | Load(relay: RelayId, loaded: bool)
    | Enqueue(relay: RelayId, reply: Reply)
    | Mark(relay: RelayId, written: bool)
    | Release(relay: RelayId, draw: nat, written: bool)
    | Crash(relay: RelayId)
    | Forget(job: JobId)
    | Send(job: JobId)
    | PruneEvents(cutoff: Time)
    | PruneJobs(gone: set<JobId>)

  // ---- the delay before a failed event is offered again ----

  function Power(n: nat): nat { if n == 0 then 1 else 2 * Power(n - 1) }

  function BaseDelay(attempts: nat): nat {
    var base := Power(if attempts < 8 then attempts else 8) * SECOND;
    if base > 300 * SECOND then 300 * SECOND else base
  }

  /** The random draw is reduced to at most a fifth of the base. */
  function RetryDelay(attempts: nat, draw: nat): Time { BaseDelay(attempts) + draw % (BaseDelay(attempts) / 5 + 1) }

  const MAX_DELAY: Time := 256 * SECOND + 256 * SECOND / 5

  lemma {:induction false} PowerGrows(n: nat, m: nat)
    requires n <= m
    ensures 1 <= Power(n) <= Power(m)
  {
    if n < m {
      PowerGrows(n, m - 1);
    } else if n > 0 {
      PowerGrows(n - 1, n - 1);
    }
  }

  /** The delay doubles with each attempt up to 256 seconds: the five-minute ceiling is never reached. */
  lemma DelayDoubles(attempts: nat, draw: nat)
    ensures SECOND <= BaseDelay(attempts) <= RetryDelay(attempts, draw) <= MAX_DELAY
    ensures BaseDelay(attempts + 1) == if attempts < 8 then 2 * BaseDelay(attempts) else BaseDelay(attempts)
  {
    assert Power(8) == 256 by {
      assert Power(4) == 16;
    }
    PowerGrows(if attempts < 8 then attempts else 8, 8);
    if attempts < 8 { PowerGrows(attempts + 1, 8); }
  }

  // ---- the steps ----

  predicate Claimable(e: Event, now: Time) {
    e.availableAt <= now && (e.status == Pending || (e.status == Publishing && e.claimedUntil.Some? && e.claimedUntil.value < now))
  }

  function ClaimEvent(e: Event, until: Time): Event { e.(status := Publishing, claimedUntil := Some(until), attempts := e.attempts + 1) }

  predicate Busy(s: State, r: RelayId, stage: Stage) { r in s.relays && s.relays[r].batch != [] && s.relays[r].stage == stage }

  predicate Distinct(batch: seq<JobId>) { forall i, j | 0 <= i < j < |batch| :: batch[i] != batch[j] }

  predicate Enabled(s: State, step: Step) {
    match step
    case Create(j) => j !in s.created
    case Tick(t) => s.clock <= t
    case Claim(r, batch, until) =>
      && (r in s.relays ==> s.relays[r].batch == []) && until <= s.clock + s.lease && Distinct(batch)
      && (forall j | j in batch :: j in s.events && Claimable(s.events[j], s.clock))
    case Load(r, loaded) => Busy(s, r, Loading) && (loaded ==> s.relays[r].batch[0].job in s.jobs)
    case Enqueue(r, reply) =>
      && Busy(s, r, Enqueueing)
      && (reply == Conflict ==> s.relays[r].batch[0].job in s.retained)
      && (reply == Taken || reply == TakenButTimedOut ==> s.relays[r].batch[0].job !in s.retained)
    case Mark(r, _) => Busy(s, r, Marking)
    case Release(r, _, _) => Busy(s, r, Releasing)
    case Crash(r) => r in s.relays
    case Forget(j) => j in s.retained
    case Send(j) => j in s.accepted && j in s.jobs
    case PruneEvents(_) => true
    case PruneJobs(gone) => gone <= s.sent && gone !! s.events.Keys
  }

  function AtStage(s: State, r: RelayId, stage: Stage): map<RelayId, Relay>
    requires r in s.relays
  {
    s.relays[r := s.relays[r].(stage := stage)]
  }

  /** On to the next event of the batch. */
  function NextEvent(s: State, r: RelayId): map<RelayId, Relay>
    requires r in s.relays && s.relays[r].batch != []
  {
    s.relays[r := Relay(s.relays[r].batch[1..], Loading)]
  }

  function ClaimedRows(s: State, batch: seq<JobId>): seq<Claimed>
    requires forall j | j in batch :: j in s.events
  {
    seq(|batch|, i requires 0 <= i < |batch| => Claimed(batch[i], s.events[batch[i]].attempts + 1))
  }

  function Do(s: State, step: Step): State
    requires Enabled(s, step)
  {
    match step
    case Create(j) =>
      s.(jobs := s.jobs + {j}, created := s.created + {j}, events := s.events[j := Event(Pending, s.clock, None, None, 0)])
    case Tick(t) => s.(clock := t)
    case Claim(r, batch, until) =>
      s.(events := map j | j in s.events :: if j in batch then ClaimEvent(s.events[j], until) else s.events[j],
         relays := s.relays[r := Relay(ClaimedRows(s, batch), Loading)])
    case Load(r, loaded) => s.(relays := AtStage(s, r, if loaded then Enqueueing else Releasing))
    case Enqueue(r, reply) =>
      var j := s.relays[r].batch[0].job;
      var s' := s.(relays := AtStage(s, r, if reply == Taken || reply == Conflict then Marking else Releasing));
      if reply == Taken || reply == TakenButTimedOut then s'.(accepted := s.accepted + {j}, retained := s.retained + {j}) else s'
    case Mark(r, written) =>
      var j := s.relays[r].batch[0].job;
      var s' := s.(relays := NextEvent(s, r));
      if written && j in s.events
      then s'.(events := s.events[j := s.events[j].(status := Published, publishedAt := Some(s.clock), claimedUntil := None)])
      else s'
    case Release(r, draw, written) =>
      var c := s.relays[r].batch[0];
      var s' := s.(relays := NextEvent(s, r));
      if written && c.job in s.events
      then s'.(events := s.events[c.job := s.events[c.job].(status := Pending, availableAt := s.clock + RetryDelay(c.attempts, draw), claimedUntil := None)])
      else s'
    case Crash(r) => s.(relays := s.relays - {r})
    case Forget(j) => s.(retained := s.retained - {j})
    case Send(j) => s.(sent := s.sent + {j})
    case PruneEvents(cutoff) =>
      s.(events := map j | j in s.events && !(s.events[j].status == Published && s.events[j].publishedAt.Some? && s.events[j].publishedAt.value < cutoff) :: s.events[j])
    case PruneJobs(gone) => s.(jobs := s.jobs - gone, sent := s.sent - gone)
  }

  function Start(now: Time, lease: Time): State { State(lease, now, {}, map[], map[], {}, {}, {}, {}) }

  ghost predicate CanRun(s: State, steps: seq<Step>)
    decreases steps
  {
    steps == [] || (Enabled(s, steps[0]) && CanRun(Do(s, steps[0]), steps[1..]))
  }

  ghost function Run(s: State, steps: seq<Step>): State
    requires CanRun(s, steps)
    decreases steps
  {
    if steps == [] then s else Run(Do(s, steps[0]), steps[1..])
  }

  // ---- what every step keeps ----

  /** An event that is not published can be claimed again within a bounded time. */
  ghost predicate Recoverable(s: State, j: JobId)
    requires j in s.events
  {
    var e := s.events[j];
    && e.availableAt <= s.clock + MAX_DELAY
    && (e.status == Publishing ==> e.claimedUntil.Some? && e.claimedUntil.value <= s.clock + s.lease)
  }

  /** A job whose task was never accepted still has its row and an unpublished event. */
  ghost predicate NotLost(s: State, j: JobId) {
    j in s.accepted || (j in s.jobs && j in s.events && s.events[j].status != Published)
  }

  ghost predicate MarksAccepted(s: State) {
    forall r | Busy(s, r, Marking) :: s.relays[r].batch[0].job in s.accepted
  }

  ghost predicate Inv(s: State) {
    && (forall j | j in s.created :: NotLost(s, j))
    && (forall j | j in s.events :: j in s.created && Recoverable(s, j))
    && (forall r | r in s.relays :: forall c | c in s.relays[r].batch :: c.job in s.created)
    && MarksAccepted(s)
    && s.retained <= s.accepted && s.sent <= s.accepted
  }

  lemma CreateKeeps(s: State, step: Step)
    requires Inv(s) && Enabled(s, step) && (step.Create? || step.Tick? || step.Send? || step.Forget? || step.Crash?)
    ensures Inv(Do(s, step))
  {}

  lemma ClaimKeeps(s: State, step: Step)
    requires Inv(s) && Enabled(s, step) && step.Claim?
    ensures Inv(Do(s, step))
  {}

  lemma EnqueueKeeps(s: State, step: Step)
    requires Inv(s) && Enabled(s, step) && (step.Load? || step.Enqueue?)
    ensures Inv(Do(s, step))
  {}

  lemma MarkKeeps(s: State, step: Step)
    requires Inv(s) && Enabled(s, step) && step.Mark?
    ensures Inv(Do(s, step))
  {}

  lemma ReleaseKeeps(s: State, step: Step)
    requires Inv(s) && Enabled(s, step) && step.Release?
    ensures Inv(Do(s, step))
  {
    DelayDoubles(s.relays[step.relay].batch[0].attempts, step.draw);
  }

  lemma PruneKeeps(s: State, step: Step)
    requires Inv(s) && Enabled(s, step) && (step.PruneEvents? || step.PruneJobs?)
    ensures Inv(Do(s, step))
  {}

  lemma StepKeeps(s: State, step: Step)
    requires Inv(s) && Enabled(s, step)
    ensures Inv(Do(s, step))
  {
    match step
    case Claim(_, _, _) => ClaimKeeps(s, step);
    case Load(_, _) => EnqueueKeeps(s, step);
    case Enqueue(_, _) => EnqueueKeeps(s, step);
    case Mark(_, _) => MarkKeeps(s, step);
    case Release(_, _, _) => ReleaseKeeps(s, step);
    case PruneEvents(_) => PruneKeeps(s, step);
    case PruneJobs(_) => PruneKeeps(s, step);
    case _ => CreateKeeps(s, step);
  }

  lemma {:induction false} RunKeeps(s: State, steps: seq<Step>)
    requires Inv(s) && CanRun(s, steps)
    ensures Inv(Run(s, steps))
    decreases steps
  {
    if steps != [] {
      StepKeeps(s, steps[0]);
      RunKeeps(Do(s, steps[0]), steps[1..]);
    }
  }

  /** However relays interleave, crash or act on expired leases: no job is lost, and an event is marked
      published only for a task the queue has accepted. */
  lemma NoJobIsLost(now: Time, lease: Time, steps: seq<Step>, j: JobId)
    requires CanRun(Start(now, lease), steps)
    ensures var s := Run(Start(now, lease), steps);
            && (j in s.created ==> j in s.accepted || (j in s.jobs && j in s.events && s.events[j].status != Published))
            && (j in s.events && s.events[j].status == Published ==> j in s.accepted)
  {
    RunKeeps(Start(now, lease), steps);
  }

  // ---- when an event can be claimed, step by step ----

  /** A new event can be claimed from its creation on. */
  lemma CreatedIsClaimable(s: State, j: JobId, t: Time)
    requires Enabled(s, Create(j))
    ensures var s' := Do(s, Create(j));
      && s' == s.(jobs := s.jobs + {j}, created := s.created + {j}, events := s'.events)
      && s'.events - {j} == s.events - {j} && j in s'.events && s'.events[j].attempts == 0
      && (Claimable(s'.events[j], t) <==> s.clock <= t)
  {}

  /** A claim gives its relay exactly the claimed events, counts an attempt of each, and keeps them from every relay
      until the lease has run out; other events stay as they are. */
  lemma ClaimedUntilLeaseEnds(s: State, r: RelayId, batch: seq<JobId>, until: Time, j: JobId, t: Time)
    requires Enabled(s, Claim(r, batch, until)) && j in s.events
    ensures var s' := Do(s, Claim(r, batch, until));
      && s' == s.(events := s'.events, relays := s'.relays) && s'.events.Keys == s.events.Keys
      && r in s'.relays && s'.relays == s.relays[r := s'.relays[r]] && s'.relays[r].stage == Loading && |s'.relays[r].batch| == |batch|
      && (forall i | 0 <= i < |batch| :: s'.relays[r].batch[i] == Claimed(batch[i], s'.events[batch[i]].attempts))
      && if j in batch then
           && s'.events[j].attempts == s.events[j].attempts + 1 && s'.events[j].status == Publishing
           && (s.clock <= t ==> (Claimable(s'.events[j], t) <==> until < t))
         else s'.events[j] == s.events[j]
  {}

  /** A released event keeps its attempts and waits: it cannot be claimed for two to the power of its attempts
      seconds (256 at most), and can be once a fifth of that more has passed. */
  lemma ReleasedEventWaits(s: State, r: RelayId, draw: nat, t: Time)
    requires Enabled(s, Release(r, draw, true)) && s.relays[r].batch[0].job in s.events
    ensures var c, s' := s.relays[r].batch[0], Do(s, Release(r, draw, true));
      var wait := Power(if c.attempts < 8 then c.attempts else 8) * 1_000_000;
      && s' == s.(events := s'.events, relays := s.relays[r := Relay(s.relays[r].batch[1..], Loading)])
      && c.job in s'.events && s'.events - {c.job} == s.events - {c.job}
      && s'.events[c.job].status == Pending && s'.events[c.job].claimedUntil == None && s'.events[c.job].attempts == s.events[c.job].attempts
      && (Claimable(s'.events[c.job], t) ==> s.clock + wait <= t)
      && (s.clock + wait + wait / 5 <= t ==> Claimable(s'.events[c.job], t))
  {
    var c := s.relays[r].batch[0];
    DelayIsPower(c.attempts, draw);
  }

  lemma DelayIsPower(attempts: nat, draw: nat)
    ensures var wait := Power(if attempts < 8 then attempts else 8) * 1_000_000;
            wait <= RetryDelay(attempts, draw) <= wait + wait / 5
  {
    DelayDoubles(attempts, draw);
    assert Power(8) == 256 by {
      assert Power(4) == 16;
    }
    PowerGrows(if attempts < 8 then attempts else 8, 8);
  }

  /** A published event is never claimed. */
  lemma MarkedIsNotClaimable(s: State, r: RelayId, t: Time)
    requires Enabled(s, Mark(r, true)) && s.relays[r].batch[0].job in s.events
    ensures var j, s' := s.relays[r].batch[0].job, Do(s, Mark(r, true));
      && s' == s.(events := s'.events, relays := s.relays[r := Relay(s.relays[r].batch[1..], Loading)])
      && j in s'.events && s'.events - {j} == s.events - {j}
      && s'.events[j].status == Published && s'.events[j].publishedAt == Some(s.clock) && !Claimable(s'.events[j], t)
  {}

  /** The cleanup removes exactly the events published before the cutoff. */
  lemma PruneIsExact(s: State, cutoff: Time, j: JobId)
    requires Enabled(s, PruneEvents(cutoff))
    ensures var s' := Do(s, PruneEvents(cutoff));
      && s' == s.(events := s'.events) && (j in s'.events ==> j in s.events && s'.events[j] == s.events[j])
      && (j in s.events && j !in s'.events <==>
            j in s.events && s.events[j].status == Published && s.events[j].publishedAt.Some? && s.events[j].publishedAt.value < cutoff)
  {}

  // ---- an unaccepted job can always still be published ----

  /** Left alone for the length of a lease or of the longest delay, an unpublished event is claimable. */
  lemma ClaimableAgain(s: State, j: JobId, later: Time)
    requires Inv(s) && j in s.events && s.events[j].status != Published
    requires later > s.clock + MAX_DELAY && later > s.clock + s.lease
    ensures Claimable(s.events[j], later)
  {
    assert Recoverable(s, j);
  }

  function Recovery(j: JobId, r: RelayId, later: Time, until: Time): seq<Step> {
    [Tick(later), Claim(r, [j], until), Load(r, true), Enqueue(r, Taken), Mark(r, true)]
  }

  lemma RunStep(s: State, steps: seq<Step>)
    requires steps != [] && Enabled(s, steps[0]) && CanRun(Do(s, steps[0]), steps[1..])
    ensures CanRun(s, steps) && Run(s, steps) == Run(Do(s, steps[0]), steps[1..])
  {}

  /** From every reachable state, a relay that is free publishes any job not yet accepted: it waits out
      the lease or delay, claims the event, enqueues the task and marks the event. */
  lemma AlwaysRecoverable(s: State, j: JobId, r: RelayId, later: Time)
    requires Inv(s) && j in s.created && j !in s.accepted
    requires r in s.relays ==> s.relays[r].batch == []
    requires later > s.clock + MAX_DELAY && later > s.clock + s.lease
    ensures var steps := Recovery(j, r, later, later + s.lease);
            && CanRun(s, steps) && j in Run(s, steps).accepted
            && j in Run(s, steps).events && Run(s, steps).events[j].status == Published
  {
    assert NotLost(s, j);
    ClaimableAgain(s, j, later);
    var steps := Recovery(j, r, later, later + s.lease);
    var s1 := Do(s, Tick(later));
    assert Enabled(s1, Claim(r, [j], later + s.lease));
    var s2 := Do(s1, Claim(r, [j], later + s.lease));
    assert ClaimedRows(s1, [j])[0].job == j;
    var s3 := Do(s2, Load(r, true));
    var s4 := Do(s3, Enqueue(r, Taken));
    var s5 := Do(s4, Mark(r, true));
    assert Run(s5, []) == s5;
    RunStep(s4, [Mark(r, true)]);
    RunStep(s3, [Enqueue(r, Taken), Mark(r, true)]);
    RunStep(s2, [Load(r, true), Enqueue(r, Taken), Mark(r, true)]);
    RunStep(s1, [Claim(r, [j], later + s.lease), Load(r, true), Enqueue(r, Taken), Mark(r, true)]);
    RunStep(s, steps);
  }

  // ---- `published` is final exactly while no relay can still release the event ----

  /** The job is in some relay's batch, and that relay is not about to mark its event. */
  ghost predicate Releasable(s: State, j: JobId) { exists r: RelayId, i: nat :: ReleasableAt(s, j, r, i) }

  ghost predicate ReleasableAt(s: State, j: JobId, r: RelayId, i: nat) {
    && r in s.relays && i < |s.relays[r].batch| && s.relays[r].batch[i].job == j
    && !(i == 0 && s.relays[r].stage == Marking)
  }

  /** Published, or pruned after it was. */
  ghost predicate PublishedForGood(s: State, j: JobId) {
    j in s.created && !Releasable(s, j) && (j in s.events ==> s.events[j].status == Published)
  }

  /** No step brings a published event into a batch. */
  lemma ReleasableBefore(s: State, step: Step, j: JobId, r: RelayId, i: nat)
    requires Enabled(s, step) && ReleasableAt(Do(s, step), j, r, i) && j in s.created
    requires j in s.events ==> s.events[j].status == Published
    ensures ReleasableAt(s, j, r, i) || ReleasableAt(s, j, r, i + 1)
  {}

  lemma StepKeepsUnreleasable(s: State, step: Step, j: JobId)
    requires Enabled(s, step) && PublishedForGood(s, j)
    ensures !Releasable(Do(s, step), j)
  {
    forall r: RelayId, i: nat
      ensures !ReleasableAt(Do(s, step), j, r, i)
    {
      if ReleasableAt(Do(s, step), j, r, i) {
        ReleasableBefore(s, step, j, r, i);
      }
    }
  }

  lemma StepKeepsPublished(s: State, step: Step, j: JobId)
    requires Enabled(s, step) && PublishedForGood(s, j)
    ensures PublishedForGood(Do(s, step), j)
  {
    StepKeepsUnreleasable(s, step, j);
    if step.Release? {
      assert s.relays[step.relay].batch[0].job == j ==> ReleasableAt(s, j, step.relay, 0);
    }
  }

  /** Once no relay can release it, a published event stays published, or pruned, whatever happens. */
  lemma {:induction false} PublishedStays(s: State, steps: seq<Step>, j: JobId)
    requires PublishedForGood(s, j) && CanRun(s, steps)
    ensures PublishedForGood(Run(s, steps), j)
    decreases steps
  {
    if steps != [] {
      StepKeepsPublished(s, steps[0], j);
      PublishedStays(Do(s, steps[0]), steps[1..], j);
    }
  }

  /** A relay can get past the first event of its batch without any event changing. */
  lemma SkipHead(s: State, r: RelayId) returns (steps: seq<Step>)
    requires r in s.relays && s.relays[r].batch != []
    ensures CanRun(s, steps) && Run(s, steps).events == s.events
    ensures Run(s, steps).relays == s.relays[r := Relay(s.relays[r].batch[1..], Loading)]
  {
    if s.relays[r].stage == Marking {
      steps := [Mark(r, false)];
      RunOne(s, Mark(r, false));
    } else {
      var toRelease := ReachReleasing(s, r);
      var s1 := Run(s, toRelease);
      RunOne(s1, Release(r, 0, false));
      RunConcat(s, toRelease, [Release(r, 0, false)]);
      steps := toRelease + [Release(r, 0, false)];
    }
  }

  /** A failing load or a refusing queue takes the relay to the release of its first event. */
  lemma ReachReleasing(s: State, r: RelayId) returns (steps: seq<Step>)
    requires r in s.relays && s.relays[r].batch != [] && s.relays[r].stage != Marking
    ensures CanRun(s, steps) && Run(s, steps) == s.(relays := s.relays[r := s.relays[r].(stage := Releasing)])
  {
    if s.relays[r].stage == Releasing {
      steps := [];
      assert s.relays[r := s.relays[r].(stage := Releasing)] == s.relays;
    } else {
      var step := if s.relays[r].stage == Loading then Load(r, false) else Enqueue(r, Refused);
      RunOne(s, step);
      steps := [step];
    }
  }

  lemma RunOne(s: State, step: Step)
    requires Enabled(s, step)
    ensures CanRun(s, [step]) && Run(s, [step]) == Do(s, step)
  {
    assert Run(Do(s, step), []) == Do(s, step);
    RunStep(s, [step]);
  }

  lemma ReleaseHead(s: State, j: JobId, r: RelayId) returns (steps: seq<Step>)
    requires ReleasableAt(s, j, r, 0) && j in s.events
    ensures CanRun(s, steps) && j in Run(s, steps).events && Run(s, steps).events[j].status == Pending
  {
    var toRelease := ReachReleasing(s, r);
    var s1 := Run(s, toRelease);
    RunOne(s1, Release(r, 0, true));
    RunConcat(s, toRelease, [Release(r, 0, true)]);
    steps := toRelease + [Release(r, 0, true)];
  }

  lemma {:induction false} ReleaseAt(s: State, j: JobId, r: RelayId, i: nat) returns (steps: seq<Step>)
    requires ReleasableAt(s, j, r, i) && j in s.events
    ensures CanRun(s, steps) && j in Run(s, steps).events && Run(s, steps).events[j].status == Pending
    decreases i
  {
    if i == 0 {
      steps := ReleaseHead(s, j, r);
    } else {
      var skip := SkipHead(s, r);
      var s1 := Run(s, skip);
      assert s1.relays[r].batch[i - 1] == s.relays[r].batch[i];
      var rest := ReleaseAt(s1, j, r, i - 1);
      RunConcat(s, skip, rest);
      steps := skip + rest;
    }
  }

  /** Conversely, as long as a relay can release it, there is a continuation in which a published event
      goes back to pending. */
  lemma ReleasableCanLeave(s: State, j: JobId) returns (steps: seq<Step>)
    requires j in s.events && s.events[j].status == Published && Releasable(s, j)
    ensures CanRun(s, steps) && j in Run(s, steps).events && Run(s, steps).events[j].status == Pending
  {
    var r: RelayId, i: nat :| ReleasableAt(s, j, r, i);
    steps := ReleaseAt(s, j, r, i);
  }

  /** The exact condition: a published event can never be anything else again, short of being pruned, if
      and only if no relay can release it. */
  lemma PublishedIsFinalExactly(s: State, j: JobId)
    requires j in s.created && j in s.events && s.events[j].status == Published
    ensures (forall steps | CanRun(s, steps) :: j in Run(s, steps).events ==> Run(s, steps).events[j].status == Published) <==> !Releasable(s, j)
  {
    if Releasable(s, j) {
      var steps := ReleasableCanLeave(s, j);
    } else {
      forall steps | CanRun(s, steps)
        ensures j in Run(s, steps).events ==> Run(s, steps).events[j].status == Published
      {
        PublishedStays(s, steps, j);
      }
    }
  }

  lemma {:induction false} RunConcat(s: State, xs: seq<Step>, ys: seq<Step>)
    requires CanRun(s, xs) && CanRun(Run(s, xs), ys)
    ensures CanRun(s, xs + ys) && Run(s, xs + ys) == Run(Run(s, xs), ys)
    decreases xs
  {
    if xs == [] {
      assert xs + ys == ys;
    } else {
      RunConcat(Do(s, xs[0]), xs[1..], ys);
      assert (xs + ys)[0] == xs[0] && (xs + ys)[1..] == xs[1..] + ys;
    }
  }

  /** A relay claims one new event, and the queue takes its task but the answer is lost. */
  lemma LoseAnswer(s: State) returns (steps: seq<Step>)
    requires s.relays == map[] && s.retained == {} && 0 in s.jobs && s.lease > 0
    requires s.events == map[0 := Event(Pending, s.clock, None, None, 0)]
    ensures CanRun(s, steps)
    ensures var s' := Run(s, steps);
            && s'.relays == map[1 := Relay([Claimed(0, 1)], Releasing)] && s'.clock == s.clock && s'.lease == s.lease
            && 0 in s'.jobs && 0 in s'.retained && s'.events == map[0 := Event(Publishing, s.clock, Some(s.clock + s.lease), None, 1)]
  {
    var claim := Claim(1, [0], s.clock + s.lease);
    assert Enabled(s, claim) && ClaimedRows(s, [0]) == [Claimed(0, 1)];
    var s2 := Do(s, claim);
    var s3 := Do(s2, Load(1, true));
    RunOne(s3, Enqueue(1, TakenButTimedOut));
    steps := [Load(1, true), Enqueue(1, TakenButTimedOut)];
    RunStep(s2, steps);
    steps := [claim] + steps;
    RunStep(s, steps);
  }

  lemma AnswerLost(now: Time, lease: Time) returns (steps: seq<Step>)
    requires lease > 0
    ensures CanRun(Start(now, lease), steps)
    ensures var s := Run(Start(now, lease), steps);
            && s.relays == map[1 := Relay([Claimed(0, 1)], Releasing)] && s.clock == now && s.lease == lease
            && 0 in s.jobs && 0 in s.retained && s.events == map[0 := Event(Publishing, now, Some(now + lease), None, 1)]
  {
    var s := Start(now, lease);
    var rest := LoseAnswer(Do(s, Create(0)));
    steps := [Create(0)] + rest;
    RunStep(s, steps);
  }

  /** A second relay finds the task already queued and marks the event published. */
  lemma SecondRelayMarks(s: State) returns (steps: seq<Step>)
    requires s.relays == map[1 := Relay([Claimed(0, 1)], Releasing)] && s.lease > 0
    requires 0 in s.jobs && 0 in s.retained && s.events == map[0 := Event(Publishing, s.clock, Some(s.clock + s.lease), None, 1)]
    ensures CanRun(s, steps)
    ensures var s' := Run(s, steps);
            0 in s'.events && s'.events[0].status == Published && 1 in s'.relays && s'.relays[1] == s.relays[1]
  {
    var later := s.clock + s.lease + 1;
    var s5 := Do(s, Tick(later));
    assert Enabled(s5, Claim(2, [0], later));
    var s6 := Do(s5, Claim(2, [0], later));
    assert ClaimedRows(s5, [0]) == [Claimed(0, 2)];
    var s7 := Do(s6, Load(2, true));
    var s8 := Do(s7, Enqueue(2, Conflict));
    var s9 := Do(s8, Mark(2, true));
    steps := [Mark(2, true)];
    assert Run(s9, []) == s9;
    RunStep(s8, steps);
    steps := [Enqueue(2, Conflict)] + steps;
    RunStep(s7, steps);
    steps := [Load(2, true)] + steps;
    RunStep(s6, steps);
    steps := [Claim(2, [0], later)] + steps;
    RunStep(s5, steps);
    steps := [Tick(later)] + steps;
    RunStep(s, steps);
  }

  /** So `published` is not terminal: the first relay then releases the event it still holds. */
  lemma PublishedIsNotTerminal(now: Time, lease: Time) returns (steps: seq<Step>)
    requires lease > 0
    ensures CanRun(Start(now, lease), steps)
    ensures var s := Run(Start(now, lease), steps);
            && 0 in s.events && s.events[0].status == Published
            && Enabled(s, Release(1, 0, true)) && Do(s, Release(1, 0, true)).events[0].status == Pending
  {
    var first := AnswerLost(now, lease);
    var second := SecondRelayMarks(Run(Start(now, lease), first));
    RunConcat(Start(now, lease), first, second);
    steps := first + second;
  }

  // ---- the relay's own code ----

  /** What one pass meets: whether the job loads, what the queue does, whether the last write succeeds. */
  datatype Weather = Weather(loads: bool, refuses: bool, timesOut: bool, draw: nat, writes: bool)

  /** Pending with no claim; not claimable for two to the power of the attempts seconds (256 at most), and claimable
      once a fifth of that more has passed. */
  ghost predicate Waiting(e: Event, now: Time, attempts: nat) {
    var wait := Power(if attempts < 8 then attempts else 8) * 1_000_000;
    && e.status == Pending && e.claimedUntil == None
    && forall t :: (Claimable(e, t) ==> now + wait <= t) && (now + wait + wait / 5 <= t ==> Claimable(e, t))
  }

  lemma ReleasedIsWaiting(s: State, r: RelayId, draw: nat)
    requires Enabled(s, Release(r, draw, true)) && s.relays[r].batch[0].job in s.events
    ensures var c, s' := s.relays[r].batch[0], Do(s, Release(r, draw, true));
            c.job in s'.events && Waiting(s'.events[c.job], s.clock, c.attempts)
  {
    forall t {
      ReleasedEventWaits(s, r, draw, t);
    }
  }

  /** The job loads, and the queue takes its task or knows it already, and says so. */
  predicate Queued(s: State, j: JobId, w: Weather) { w.loads && j in s.jobs && !w.refuses && (j in s.retained || !w.timesOut) }

  /** The relay's loop over a claimed batch, run against the shared state. */
  class OutboxRelay {
    const id: RelayId
    var state: State

    constructor (id: RelayId, state: State)
      ensures this.id == id && this.state == state
    {
      this.id, this.state := id, state;
    }

    /** Loads the job of the first event and offers its task to the queue. */
    method Offer(w: Weather) returns (queued: bool, ghost steps: seq<Step>)
      requires Busy(state, id, Loading) && state.retained <= state.accepted
      modifies this
      ensures CanRun(old(state), steps) && state == Run(old(state), steps)
      ensures queued == Queued(old(state), old(state.relays[id].batch[0].job), w)
      ensures id in state.relays && state.relays == old(state.relays)[id := Relay(old(state.relays[id].batch), if queued then Marking else Releasing)]
      ensures var j := old(state.relays[id].batch[0].job);
              && state == old(state).(relays := state.relays, accepted := state.accepted, retained := state.retained)
              && state.retained <= state.accepted <= old(state.accepted) + {j} && (queued ==> j in state.accepted)
    {
      var c := state.relays[id].batch[0];
      var load := Load(id, w.loads && c.job in state.jobs);
      RunOne(state, load);
      ghost var s0 := state;
      state := Do(state, load);
      steps := [load];
      queued := false;
      if load.loaded {
        var reply := if w.refuses then Refused else if c.job in state.retained then Conflict else if w.timesOut then TakenButTimedOut else Taken;
        RunOne(state, Enqueue(id, reply));
        RunConcat(s0, [load], [Enqueue(id, reply)]);
        state := Do(state, Enqueue(id, reply));
        steps := [load] + [Enqueue(id, reply)];
        queued := reply == Taken || reply == Conflict;
      }
    }

    /** Marks the first event published, or releases it to be tried again. */
    method Conclude(queued: bool, w: Weather) returns (ghost steps: seq<Step>)
      requires Busy(state, id, if queued then Marking else Releasing)
      modifies this
      ensures CanRun(old(state), steps) && state == Run(old(state), steps)
      ensures state == old(state).(events := state.events, relays := old(state.relays)[id := Relay(old(state.relays[id].batch[1..]), Loading)])
      ensures var c := old(state.relays[id].batch[0]);
              && state.events - {c.job} == old(state.events) - {c.job} && (!w.writes ==> state.events == old(state.events))
              && (w.writes && c.job in old(state.events) ==>
                    && c.job in state.events && state.events[c.job].attempts == old(state.events[c.job].attempts)
                    && if queued then state.events[c.job].status == Published else Waiting(state.events[c.job], state.clock, c.attempts))
    {
      var last := if queued then Mark(id, w.writes) else Release(id, w.draw, w.writes);
      RunOne(state, last);
      if last.Release? && w.writes && state.relays[id].batch[0].job in state.events {
        ReleasedIsWaiting(state, id, w.draw);
      }
      state := Do(state, last);
      steps := [last];
    }

    /** Publishes the first event of the batch: load the job, enqueue its task, then mark or release. A published
        event's task has been accepted; a failed event waits for its retry delay. */
    method PublishEvent(w: Weather) returns (ghost steps: seq<Step>)
      requires Busy(state, id, Loading) && state.retained <= state.accepted
      modifies this
      ensures CanRun(old(state), steps) && state == Run(old(state), steps)
      ensures state.retained <= state.accepted
      ensures state == old(state).(events := state.events, accepted := state.accepted, retained := state.retained,
                                   relays := old(state.relays)[id := Relay(old(state.relays[id].batch[1..]), Loading)])
      ensures var c := old(state.relays[id].batch[0]);
              && state.events - {c.job} == old(state.events) - {c.job} && (!w.writes ==> state.events == old(state.events))
              && state.accepted <= old(state.accepted) + {c.job} && (Queued(old(state), c.job, w) ==> c.job in state.accepted)
              && (w.writes && c.job in old(state.events) ==>
                    && c.job in state.events && state.events[c.job].attempts == old(state.events[c.job].attempts)
                    && if Queued(old(state), c.job, w) then state.events[c.job].status == Published
                       else Waiting(state.events[c.job], state.clock, c.attempts))
    {
      var queued, offered := Offer(w);
      ghost var concluded := Conclude(queued, w);
      RunConcat(old(state), offered, concluded);
      steps := offered + concluded;
    }

    /** Claims a batch and publishes its events one after another; one event's failure does not stop the rest. */
    method PublishBatch(batch: seq<JobId>, until: Time, weather: seq<Weather>) returns (ghost steps: seq<Step>)
      requires Enabled(state, Claim(id, batch, until)) && |weather| == |batch| && state.retained <= state.accepted
      modifies this
      ensures CanRun(old(state), steps) && state == Run(old(state), steps)
      ensures id in state.relays && state.relays[id].batch == []
    {
      ghost var s0 := state;
      state := Do(state, Claim(id, batch, until));
      assert Run(state, []) == state;
      steps := [Claim(id, batch, until)];
      RunStep(s0, steps);
      for i := 0 to |batch|
        invariant CanRun(s0, steps) && state == Run(s0, steps)
        invariant state.retained <= state.accepted
        invariant id in state.relays && state.relays[id].stage == Loading && |state.relays[id].batch| == |batch| - i
      {
        ghost var more := PublishEvent(weather[i]);
        RunConcat(s0, steps, more);
        steps := steps + more;
      }
    }
  }
}
