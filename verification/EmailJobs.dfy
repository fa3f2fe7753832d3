/** One email job and the handler runs of its task. Runs may overlap, crash, or fail to read or
    write; the relay may record the job as queued at any moment. */
module EmailJobs {
  import opened Common

  datatype Status = Pending | Queued | Processing | Retrying | Sent | DeadLetter
  datatype Job = Job(status: Status, attempts: nat, max: nat)

  /** What a handler run does next. */
  datatype Stage = Reading | Starting | Sending(attempt: nat) | RecordingSent | RecordingDead | RecordingRetry | Failing

  datatype Reply = Accepted | AcceptedButTimedOut | Temporary | Permanent

  /** Handler runs are numbered from 0, which is also their retry count. `started` are the runs that
      have counted an attempt; `accepted` tells whether the provider ever took the message. */
  datatype State = State(job: Job, runs: nat, handlers: map<nat, Stage>, started: set<nat>, accepted: bool)

  /** `ok` is false when the statement fails. */
  datatype Step =
    | Begin
    | Read(run: nat, ok: bool)
    | StartAttempt(run: nat, ok: bool)
    | Send(run: nat, reply: Reply)
    | Record(run: nat, ok: bool)
    | Handle(run: nat, ok: bool)
    | Crash(run: nat)
    | MarkQueued

  predicate At(s: State, h: nat, stage: Stage) { h in s.handlers && s.handlers[h] == stage }

  predicate Recording(stage: Stage) { stage == RecordingSent || stage == RecordingDead || stage == RecordingRetry }

  predicate Enabled(s: State, step: Step) {
    match step
    case Begin => s.runs < s.job.max  // the queue runs a task at most MaxRetry + 1 times
    case Read(h, _) => At(s, h, Reading)
    case StartAttempt(h, _) => At(s, h, Starting)
    case Send(h, _) => h in s.handlers && s.handlers[h].Sending?
    case Record(h, _) => h in s.handlers && Recording(s.handlers[h])
    case Handle(h, _) => At(s, h, Failing)
    case Crash(h) => h in s.handlers
    case MarkQueued => true
  }

  // ---- the guarded updates ----

  function Queue(job: Job): Job { if job.status == Pending then job.(status := Queued) else job }

  predicate CanStart(job: Job) { job.status == Pending || job.status == Queued || job.status == Processing || job.status == Retrying }

  function Start(job: Job): Job { job.(status := Processing, attempts := job.attempts + 1) }

  function Bury(job: Job): Job { if job.status == Sent then job else job.(status := DeadLetter) }

  function Retry(job: Job): Job { if job.status == Sent then job else job.(status := Retrying) }

  // ---- the steps ----

  function Move(s: State, h: nat, stage: Stage): State { s.(handlers := s.handlers[h := stage]) }

  function Leave(s: State, h: nat): State { s.(handlers := s.handlers - {h}) }

  function DoRead(s: State, h: nat, ok: bool): State {
    if !ok then Move(s, h, Failing)
    else if s.job.status == Sent then Leave(s, h)
    else if s.job.status == DeadLetter then Move(s, h, Failing)
    else Move(s, h, Starting)
  }

  function DoStart(s: State, h: nat, ok: bool): State {
    if ok && CanStart(s.job) then Move(s, h, Sending(s.job.attempts + 1)).(job := Start(s.job), started := s.started + {h})
    else Move(s, h, Failing)
  }

  function DoSend(s: State, h: nat, reply: Reply): State
    requires h in s.handlers && s.handlers[h].Sending?
  {
    match reply
    case Accepted => Move(s, h, RecordingSent).(accepted := true)
    case Permanent => Move(s, h, RecordingDead)
    case _ =>
      var s' := Move(s, h, if s.handlers[h].attempt >= s.job.max then RecordingDead else RecordingRetry);
      if reply == AcceptedButTimedOut then s'.(accepted := true) else s'
  }

  /** Writes the outcome; a refused or failed write is an error of the handler. */
  function DoRecord(s: State, h: nat, ok: bool): State
    requires h in s.handlers && Recording(s.handlers[h])
  {
    if !ok then Move(s, h, Failing)
    else
      match s.handlers[h]
      case RecordingSent => Leave(s, h).(job := s.job.(status := Sent))
      case RecordingDead => Move(s, h, Failing).(job := Bury(s.job))
      case RecordingRetry => Move(s, h, Failing).(job := Retry(s.job))
  }

  /** The queue's error handler buries the job once the retries are used up. */
  function DoHandle(s: State, h: nat, ok: bool): State {
    if h + 1 >= s.job.max && ok then Leave(s, h).(job := Bury(s.job)) else Leave(s, h)
  }

  function Do(s: State, step: Step): State
    requires Enabled(s, step)
  {
    match step
    case Begin => s.(runs := s.runs + 1, handlers := s.handlers[s.runs := Reading])
    case Read(h, ok) => DoRead(s, h, ok)
    case StartAttempt(h, ok) => DoStart(s, h, ok)
    case Send(h, reply) => DoSend(s, h, reply)
    case Record(h, ok) => DoRecord(s, h, ok)
    case Handle(h, ok) => DoHandle(s, h, ok)
    case Crash(h) => Leave(s, h)
    case MarkQueued => s.(job := Queue(s.job))
  }

  function Created(max: nat): State { State(Job(Pending, 0, max), 0, map[], {}, false) }

  ghost predicate CanRun(s: State, steps: seq<Step>)
    decreases steps
  {
    steps == [] || (Enabled(s, steps[0]) && CanRun(Do(s, steps[0]), steps[1..]))
  }

  ghost function Run(s: State, steps: seq<Step>): State
    requires CanRun(s, steps)
    decreases steps
  {
    if steps == [] then s else Run(Do(s, steps[0]), steps[1..])
  }

  // ---- what every step keeps ----

  function Numbers(n: nat): (r: set<nat>)
    ensures (forall i: nat :: i in r <==> i < n) && |r| == n
  {
    if n == 0 then {} else Numbers(n - 1) + {n - 1}
  }

  ghost predicate SentWasAccepted(s: State) {
    && (s.job.status == Sent ==> s.accepted)
    && (forall h | h in s.handlers && s.handlers[h] == RecordingSent :: s.accepted)
  }

  /** Each run counts at most one attempt. */
  ghost predicate AttemptsCounted(s: State) {
    && s.job.attempts == |s.started| && s.runs <= s.job.max
    && (forall h | h in s.started :: h < s.runs)
    && (forall h | h in s.handlers :: h < s.runs && (s.handlers[h] == Reading || s.handlers[h] == Starting ==> h !in s.started))
  }

  ghost predicate Inv(s: State) { SentWasAccepted(s) && AttemptsCounted(s) }

  lemma StepKeepsSent(s: State, step: Step)
    requires SentWasAccepted(s) && Enabled(s, step)
    ensures SentWasAccepted(Do(s, step)) && Do(s, step).job.max == s.job.max
    ensures s.job.status == Sent ==> Do(s, step).job.status == Sent
  {}

  lemma StartCounts(s: State, h: nat, ok: bool)
    requires AttemptsCounted(s) && At(s, h, Starting)
    ensures AttemptsCounted(DoStart(s, h, ok))
  {}

  lemma StepKeepsCount(s: State, step: Step)
    requires AttemptsCounted(s) && Enabled(s, step)
    ensures AttemptsCounted(Do(s, step))
  {
    if step.StartAttempt? {
      StartCounts(s, step.run, step.ok);
    } else {
      assert Do(s, step).started == s.started;
    }
  }

  lemma {:induction false} RunKeeps(s: State, steps: seq<Step>)
    requires Inv(s) && CanRun(s, steps)
    ensures Inv(Run(s, steps)) && Run(s, steps).job.max == s.job.max
    ensures s.job.status == Sent ==> Run(s, steps).job.status == Sent
    decreases steps
  {
    if steps != [] {
      StepKeepsSent(s, steps[0]);
      StepKeepsCount(s, steps[0]);
      RunKeeps(Do(s, steps[0]), steps[1..]);
    }
  }

  /** Under any overlap: `sent` is entered only after the provider took the message and is never left,
      and attempts never exceed the runs, hence never the maximum. */
  lemma SentIsFinalAndAttemptsBounded(max: nat, before: seq<Step>, after: seq<Step>)
    requires CanRun(Created(max), before) && CanRun(Run(Created(max), before), after)
    ensures var s, s' := Run(Created(max), before), Run(Run(Created(max), before), after);
            && (s.job.status == Sent ==> s.accepted && s'.job.status == Sent)
            && s.job.attempts <= s.runs <= max
  {
    RunKeeps(Created(max), before);
    var s := Run(Created(max), before);
    RunKeeps(s, after);
    assert s.started <= Numbers(s.runs);
    SubsetSize(s.started, Numbers(s.runs));
  }

  // ---- `dead_letter` is terminal exactly while no run that has started is still in flight ----

  predicate InFlight(stage: Stage) { stage.Sending? || stage == RecordingSent || stage == RecordingRetry }

  /** A run past its start can still overwrite `dead_letter`. */
  ghost predicate Settled(s: State) { s.job.status == DeadLetter && forall h | h in s.handlers :: !InFlight(s.handlers[h]) }

  lemma {:induction false} SettledStays(s: State, steps: seq<Step>)
    requires Settled(s) && CanRun(s, steps)
    ensures Settled(Run(s, steps))
    decreases steps
  {
    if steps != [] {
      SettledStays(Do(s, steps[0]), steps[1..]);
    }
  }

  /** The very writes that leave `dead_letter`. */
  lemma LeavesDeadLetter(s: State, step: Step)
    requires s.job.status == DeadLetter && Enabled(s, step)
    ensures Do(s, step).job.status != DeadLetter <==>
            step.Record? && step.ok && (s.handlers[step.run] == RecordingSent || s.handlers[step.run] == RecordingRetry)
  {}

  /** Conversely, from every dead-lettered state with such a run there is a continuation that leaves it. */
  lemma UnsettledCanLeave(s: State) returns (steps: seq<Step>)
    requires s.job.status == DeadLetter && !Settled(s)
    ensures CanRun(s, steps) && (Run(s, steps).job.status == Sent || Run(s, steps).job.status == Retrying)
  {
    var h :| h in s.handlers && InFlight(s.handlers[h]);
    if s.handlers[h].Sending? {
      steps := [Send(h, Accepted), Record(h, true)];
      var s1 := Do(s, Send(h, Accepted));
      var s2 := Do(s1, Record(h, true));
      assert Run(s2, []) == s2;
      RunStep(s1, [Record(h, true)]);
      RunStep(s, steps);
    } else {
      steps := [Record(h, true)];
      var s1 := Do(s, Record(h, true));
      assert Run(s1, []) == s1;
      RunStep(s, steps);
    }
  }

  lemma RunStep(s: State, steps: seq<Step>)
    requires steps != [] && Enabled(s, steps[0]) && CanRun(Do(s, steps[0]), steps[1..])
    ensures CanRun(s, steps) && Run(s, steps) == Run(Do(s, steps[0]), steps[1..])
  {}

  lemma {:induction false} RunConcat(s: State, xs: seq<Step>, ys: seq<Step>)
    requires CanRun(s, xs) && CanRun(Run(s, xs), ys)
    ensures CanRun(s, xs + ys) && Run(s, xs + ys) == Run(Run(s, xs), ys)
    decreases xs
  {
    if xs == [] {
      assert xs + ys == ys;
    } else {
      RunConcat(Do(s, xs[0]), xs[1..], ys);
      assert (xs + ys)[0] == xs[0] && (xs + ys)[1..] == xs[1..] + ys;
    }
  }

  lemma RunSnoc(s: State, steps: seq<Step>, step: Step)
    requires CanRun(s, steps) && Enabled(Run(s, steps), step)
    ensures CanRun(s, steps + [step]) && Run(s, steps + [step]) == Do(Run(s, steps), step)
  {
    var s' := Run(s, steps);
    assert Run(Do(s', step), []) == Do(s', step);
    RunStep(s', [step]);
    RunConcat(s, steps, [step]);
  }

  lemma {:induction false} RunAll(s: State, steps: seq<Step>, states: seq<State>)
    requires |states| == |steps| + 1 && states[0] == s
    requires forall i | 0 <= i < |steps| :: Enabled(states[i], steps[i]) && states[i + 1] == Do(states[i], steps[i])
    ensures CanRun(s, steps) && Run(s, steps) == states[|steps|]
  {
    if steps != [] {
      var n := |steps| - 1;
      RunAll(s, steps[..n], states[..n + 1]);
      RunSnoc(s, steps[..n], steps[n]);
      assert steps == steps[..n] + [steps[n]];
    }
  }

  /** Such a state is reached when two runs overlap and one of them meets a permanent failure. */
  lemma DeadLetterIsNotTerminal(max: nat) returns (steps: seq<Step>)
    requires max >= 2
    ensures CanRun(Created(max), steps) && Run(Created(max), steps).job.status == DeadLetter && !Settled(Run(Created(max), steps))
  {
    var s0 := Created(max);
    var s1 := Do(s0, Begin);
    var s2 := Do(s1, Read(0, true));
    var s3 := Do(s2, StartAttempt(0, true));
    var s4 := Do(s3, Begin);
    var s5 := Do(s4, Read(1, true));
    var s6 := Do(s5, StartAttempt(1, true));
    var s7 := Do(s6, Send(1, Permanent));
    var s8 := Do(s7, Record(1, true));
    steps := [Begin, Read(0, true), StartAttempt(0, true), Begin, Read(1, true), StartAttempt(1, true), Send(1, Permanent), Record(1, true)];
    RunAll(s0, steps, [s0, s1, s2, s3, s4, s5, s6, s7, s8]);
    assert s8.handlers[0].Sending?;
  }

  // ---- runs one after another, with reads and writes that succeed ----

  class Processor {
    var state: State

    constructor (state: State)
      ensures this.state == state
    {
      this.state := state;
    }

    /** Takes one step and records it in `steps`. */
    method Take(ghost s0: State, ghost before: seq<Step>, step: Step) returns (ghost steps: seq<Step>)
      requires Enabled(state, step) && CanRun(s0, before) && state == Run(s0, before)
      modifies this
      ensures state == Do(old(state), step) && steps == before + [step] && CanRun(s0, steps) && state == Run(s0, steps)
    {
      RunSnoc(s0, before, step);
      state := Do(state, step);
      steps := before + [step];
    }

    /** Counts the attempt, calls the mailer and writes the outcome. */
    method Attempt(ghost s0: State, ghost before: seq<Step>, h: nat, reply: Reply) returns (ghost steps: seq<Step>)
      requires state.handlers == map[h := Starting] && CanStart(state.job) && CanRun(s0, before) && state == Run(s0, before)
      modifies this
      ensures CanRun(s0, steps) && state == Run(s0, steps)
      ensures var job := Start(old(state.job));
              && state.runs == old(state.runs)
              && state.handlers == (if reply == Accepted then map[] else map[h := Failing])
              && state.job == job.(status := if reply == Accepted then Sent else if reply == Permanent || job.attempts >= job.max then DeadLetter else Retrying)
    {
      steps := Take(s0, before, StartAttempt(h, true));
      steps := Take(s0, steps, Send(h, reply));
      steps := Take(s0, steps, Record(h, true));
    }

    /** One handler run and, after an error, the queue's error handler. */
    method ProcessTaskSendEmail(reply: Reply) returns (ghost steps: seq<Step>)
      requires state.handlers == map[] && state.runs < state.job.max
      modifies this
      ensures CanRun(old(state), steps) && state == Run(old(state), steps)
      ensures state.handlers == map[] && state.runs == old(state.runs) + 1
      ensures state.job == if old(state.job.status) == Sent || old(state.job.status) == DeadLetter then old(state.job) else Attempted(old(state.job), reply, state.runs)
    {
      var h := state.runs;
      assert Run(state, []) == state;
      ghost var s0 := state;
      steps := Take(s0, [], Begin);
      steps := Take(s0, steps, Read(h, true));
      if h in state.handlers && state.handlers[h] == Starting {
        steps := Attempt(s0, steps, h, reply);
      }
      if h in state.handlers {
        steps := Take(s0, steps, Handle(h, true));
      }
    }

    /** The queue retries until the job is settled. It ends sent or dead-lettered within the runs left,
        and it is sent exactly when an acceptance comes before any permanent failure. */
    method Drain(replies: seq<Reply>) returns (ghost steps: seq<Step>)
      requires state.handlers == map[] && CanStart(state.job) && state.job.attempts <= state.runs < state.job.max
      requires |replies| == state.job.max - state.runs
      modifies this
      ensures CanRun(old(state), steps) && state == Run(old(state), steps)
      ensures state.job.status == Sent || state.job.status == DeadLetter
      ensures state.job.status == Sent <==> exists i :: 0 <= i < |replies| && AcceptedFirst(replies, i)
    {
      steps := [];
      assert Run(state, []) == state;
      ghost var s0 := old(state);
      var i := 0;
      while CanStart(state.job)
        invariant 0 <= i <= |replies| && state.handlers == map[] && state.job.max == s0.job.max && state.runs == s0.runs + i
        invariant CanRun(s0, steps) && state == Run(s0, steps)
        invariant CanStart(state.job) ==> i < |replies| && state.job.attempts <= state.runs && AllTemporary(replies[..i])
        invariant state.job.status == Sent ==> i > 0 && AcceptedFirst(replies, i - 1)
        invariant state.job.status == DeadLetter ==>
                    i > 0 && AllTemporary(replies[..i - 1]) && replies[i - 1] != Accepted && (replies[i - 1] == Permanent || i == |replies|)
        decreases |replies| - i
      {
        ghost var more := ProcessTaskSendEmail(replies[i]);
        RunConcat(s0, steps, more);
        steps := steps + more;
        assert replies[..i + 1] == replies[..i] + [replies[i]];
        i := i + 1;
      }
      if state.job.status == DeadLetter { NeverAccepted(replies, i); }
    }
  }

  /** The job after its `n`-th run: a temporary failure is final once attempts or runs are used up. */
  function Attempted(job: Job, reply: Reply, n: nat): Job {
    var job' := job.(attempts := job.attempts + 1);
    if reply == Accepted then job'.(status := Sent)
    else if reply == Permanent || job'.attempts >= job'.max || n >= job'.max then job'.(status := DeadLetter)
    else job'.(status := Retrying)
  }

  lemma NeverAccepted(replies: seq<Reply>, n: nat)
    requires 0 < n <= |replies| && AllTemporary(replies[..n - 1]) && replies[n - 1] != Accepted
    requires replies[n - 1] == Permanent || n == |replies|
    ensures forall i | 0 <= i < |replies| :: !AcceptedFirst(replies, i)
  {
    forall i | 0 <= i < |replies|
      ensures !AcceptedFirst(replies, i)
    {
      if i < n - 1 {
        assert replies[i] in replies[..n - 1];
      } else if i > n - 1 {
        assert replies[n - 1] in replies[..i];
      }
    }
  }

  predicate AllTemporary(replies: seq<Reply>) { forall r | r in replies :: r == Temporary || r == AcceptedButTimedOut }

  predicate AcceptedFirst(replies: seq<Reply>, i: nat)
    requires i < |replies|
  {
    replies[i] == Accepted && AllTemporary(replies[..i])
  }

  /** The relay's note that a job is queued races the handler that starts it: in either order the result is the same.
      Before a start the note shows; after anything else has happened it changes nothing. */
  lemma NoteRacesHandler(s: State, h: nat)
    requires Enabled(s, StartAttempt(h, true))
    ensures Do(Do(s, MarkQueued), StartAttempt(h, true)) == Do(Do(s, StartAttempt(h, true)), MarkQueued)
    ensures Do(s, MarkQueued).job.status == if s.job.status == Pending then Queued else s.job.status
  {}

  /** An attempt starts exactly on a job that is neither sent nor dead; the job is then processing and has one attempt more. */
  lemma StartsExactly(s: State, h: nat)
    requires Enabled(s, StartAttempt(h, true))
    ensures var s' := Do(s, StartAttempt(h, true));
      && (h in s'.started <==> h in s.started || (s.job.status != Sent && s.job.status != DeadLetter))
      && s'.job == if s.job.status == Sent || s.job.status == DeadLetter then s.job else Job(Processing, s.job.attempts + 1, s.job.max)
  {}
}
