/** A user's registration: verification, resends, address changes, expiry and bounces. */
module Users {
  import opened Common

  type JobId = nat
  const REGISTRATION_WINDOW: Time := 7 * 24 * 3600 * SECOND
  const COOLDOWN: Time := 60 * SECOND

  datatype Status = Pending | Active | Disabled
  datatype Deliverability = Unknown | Unconfirmed | Deliverable | Undeliverable
  datatype User = User(email: string, status: Status, verifiedAt: Option<Time>, expiresAt: Option<Time>,
                       deliverability: Deliverability, deliveryAt: Option<Time>)

  /** A verification email, with the hash of the token in its link once the worker has sent it. */
  datatype Job = Job(user: string, recipient: string, createdAt: Time, tokenHash: Option<string>, tokenExpiresAt: Option<Time>)

  datatype Error = NoRows | DuplicateKey | JobMismatch | TokenExpired | AddressStale | RegistrationDisabled
                 | AddressUndeliverable | AlreadyVerified | Cooldown
  datatype Reply = Done | Failed(error: Error)
  datatype State = State(users: map<string, User>, jobs: map<JobId, Job>)

  datatype Step =
    | SignUp(user: string, email: string, job: JobId)
    | IssueToken(job: JobId, hash: string, expiresAt: Time)
    | Verify(user: string, email: string, job: JobId, hash: string)
    | Resend(user: string, job: JobId)
    | Update(user: string, newEmail: Option<string>, job: JobId)
    | Expire
    | Report(user: string, recipient: string, deliverable: bool, occurredAt: Time)

  // ---- addresses compare without regard to case ----

  function LowerChar(c: char): char { if 'A' <= c <= 'Z' then c - 'A' + 'a' else c }
  function Lower(s: string): string { seq(|s|, i requires 0 <= i < |s| => LowerChar(s[i])) }
  predicate SameAddress(a: string, b: string) { Lower(a) == Lower(b) }

  // ---- the row updates ----

  function NewUser(email: string, now: Time): User { User(email, Pending, None, Some(now + REGISTRATION_WINDOW), Unconfirmed, None) }

  function MarkVerified(u: User, now: Time): User {
    u.(status := Active, verifiedAt := if u.verifiedAt.Some? then u.verifiedAt else Some(now), expiresAt := None,
       deliverability := Deliverable, deliveryAt := Some(now))
  }

  function Restart(u: User, now: Time): User {
    u.(status := Pending, verifiedAt := None, expiresAt := if u.status == Disabled then Some(now + REGISTRATION_WINDOW) else u.expiresAt,
       deliverability := Unconfirmed, deliveryAt := None)
  }

  function ChangeAddress(u: User, email: string, now: Time): User {
    if SameAddress(email, u.email) then u.(email := email)
    else User(email, Pending, None, Some(now + REGISTRATION_WINDOW), Unconfirmed, None)
  }

  predicate ReportApplies(u: User, recipient: string, deliverable: bool, at: Time) {
    && SameAddress(u.email, recipient) && (u.deliveryAt.Some? ==> u.deliveryAt.value < at)
    && (u.deliverability == Undeliverable ==> !deliverable)
  }

  function ApplyReport(u: User, deliverable: bool, at: Time, now: Time): User {
    if deliverable then u.(deliverability := Deliverable, deliveryAt := Some(at))
    else u.(deliverability := Undeliverable, deliveryAt := Some(at), status := Pending, verifiedAt := None, expiresAt := Some(now + REGISTRATION_WINDOW))
  }

  function Lapse(u: User, now: Time): User {
    if u.status == Pending && u.expiresAt.Some? && u.expiresAt.value <= now then u.(status := Disabled) else u
  }

  // ---- the operations ----

  /** The checks of `VerifyUserEmailTx`, in order. */
  function CheckVerify(s: State, step: Step, now: Time): Option<Error>
    requires step.Verify?
  {
    if step.job !in s.jobs then Some(JobMismatch)
    else
      var job := s.jobs[step.job];
      if job.user != step.user || !SameAddress(job.recipient, step.email) then Some(JobMismatch)
      else if job.tokenExpiresAt.None? || job.tokenExpiresAt.value <= now then Some(TokenExpired)
      else if job.tokenHash != Some(step.hash) then Some(JobMismatch)
      else if step.user !in s.users then Some(NoRows)
      else
        var u := s.users[step.user];
        if !SameAddress(u.email, step.email) then Some(AddressStale)
        else if u.status == Disabled then Some(RegistrationDisabled)
        else if u.deliverability == Undeliverable then Some(AddressUndeliverable)
        else None
  }

  /** Some mail to the current address was created less than a minute ago. */
  predicate Cooling(s: State, user: string, now: Time)
    requires user in s.users
  {
    exists j | j in s.jobs :: s.jobs[j].user == user && SameAddress(s.jobs[j].recipient, s.users[user].email) && now - s.jobs[j].createdAt < COOLDOWN
  }

  function CheckResend(s: State, user: string, now: Time): Option<Error> {
    if user !in s.users then Some(NoRows)
    else
      var u := s.users[user];
      if u.verifiedAt.Some? && u.status == Active then Some(AlreadyVerified)
      else if u.deliverability == Undeliverable then Some(AddressUndeliverable)
      else if Cooling(s, user, now) then Some(Cooldown)
      else None
  }

  function Mailed(s: State, j: JobId, user: string, now: Time): map<JobId, Job>
    requires user in s.users
  {
    s.jobs[j := Job(user, s.users[user].email, now, None, None)]
  }

  function Do(s: State, step: Step, now: Time): (State, Reply) {
    match step
    case SignUp(user, email, j) =>
      if user in s.users || (exists v | v in s.users :: SameAddress(s.users[v].email, email)) then (s, Failed(DuplicateKey))
      else
        var s' := s.(users := s.users[user := NewUser(email, now)]);
        (s'.(jobs := Mailed(s', j, user, now)), Done)
    case IssueToken(j, hash, expiresAt) =>
      if j !in s.jobs then (s, Failed(NoRows))
      else (s.(jobs := s.jobs[j := s.jobs[j].(tokenHash := Some(hash), tokenExpiresAt := Some(expiresAt))]), Done)
    case Verify(user, email, j, hash) =>
      var check := CheckVerify(s, step, now);
      if check.Some? then (s, Failed(check.value))
      else if s.users[user].status == Active && s.users[user].verifiedAt.Some? then (s, Done)
      else (s.(users := s.users[user := MarkVerified(s.users[user], now)]), Done)
    case Resend(user, j) =>
      var check := CheckResend(s, user, now);
      if check.Some? then (s, Failed(check.value))
      else
        var s' := s.(users := s.users[user := Restart(s.users[user], now)]);
        (s'.(jobs := Mailed(s', j, user, now)), Done)
    case Update(user, email, j) =>
      if user !in s.users then (s, Failed(NoRows))
      else if email.None? then (s, Done)
      else if exists v | v in s.users && v != user :: SameAddress(s.users[v].email, email.value) then (s, Failed(DuplicateKey))
      else
        var s' := s.(users := s.users[user := ChangeAddress(s.users[user], email.value, now)]);
        (if SameAddress(email.value, s.users[user].email) then s' else s'.(jobs := Mailed(s', j, user, now)), Done)
    case Expire => (s.(users := map v | v in s.users :: Lapse(s.users[v], now)), Done)
    case Report(user, recipient, deliverable, at) =>
      if user !in s.users || !ReportApplies(s.users[user], recipient, deliverable, at) then (s, Failed(NoRows))
      else (s.(users := s.users[user := ApplyReport(s.users[user], deliverable, at, now)]), Done)
  }

  class UserStore {
    var users: map<string, User>
    var jobs: map<JobId, Job>

    constructor ()
      ensures users == map[] && jobs == map[]
    {
      users, jobs := map[], map[];
    }

    method CreateUserTx(user: string, email: string, j: JobId, now: Time) returns (reply: Reply)
      modifies this
      ensures (State(users, jobs), reply) == Do(State(old(users), old(jobs)), SignUp(user, email, j), now)
    {
      if user in users || exists v | v in users :: SameAddress(users[v].email, email) { return Failed(DuplicateKey); }
      users := users[user := NewUser(email, now)];
      jobs := jobs[j := Job(user, email, now, None, None)];
      return Done;
    }

    method VerifyUserEmailTx(user: string, email: string, j: JobId, hash: string, now: Time) returns (reply: Reply)
      modifies this`users
      ensures (State(users, jobs), reply) == Do(State(old(users), jobs), Verify(user, email, j, hash), now)
    {
      if j !in jobs { return Failed(JobMismatch); }
      var job := jobs[j];
      if job.user != user || !SameAddress(job.recipient, email) { return Failed(JobMismatch); }
      if job.tokenExpiresAt.None? || !(now < job.tokenExpiresAt.value) { return Failed(TokenExpired); }
      if job.tokenHash != Some(hash) { return Failed(JobMismatch); }
      if user !in users { return Failed(NoRows); }
      var u := users[user];
      if !SameAddress(u.email, email) { return Failed(AddressStale); }
      if u.status == Disabled { return Failed(RegistrationDisabled); }
      if u.deliverability == Undeliverable { return Failed(AddressUndeliverable); }
      if u.status == Active && u.verifiedAt.Some? { return Done; }
      users := users[user := MarkVerified(u, now)];
      return Done;
    }

    method RequestEmailVerificationTx(user: string, j: JobId, now: Time) returns (reply: Reply)
      modifies this
      ensures (State(users, jobs), reply) == Do(State(old(users), old(jobs)), Resend(user, j), now)
    {
      if user !in users { return Failed(NoRows); }
      var u := users[user];
      if u.verifiedAt.Some? && u.status == Active { return Failed(AlreadyVerified); }
      if u.deliverability == Undeliverable { return Failed(AddressUndeliverable); }
      if Cooling(State(users, jobs), user, now) { return Failed(Cooldown); }
      users := users[user := Restart(u, now)];
      jobs := jobs[j := Job(user, u.email, now, None, None)];
      return Done;
    }

    method UpdateUserTx(user: string, email: Option<string>, j: JobId, now: Time) returns (reply: Reply)
      modifies this
      ensures (State(users, jobs), reply) == Do(State(old(users), old(jobs)), Update(user, email, j), now)
    {
      if user !in users { return Failed(NoRows); }
      if email.None? { return Done; }
      var current := users[user];
      if exists v | v in users && v != user :: SameAddress(users[v].email, email.value) { return Failed(DuplicateKey); }
      users := users[user := ChangeAddress(current, email.value, now)];
      if !SameAddress(email.value, current.email) {
        jobs := jobs[j := Job(user, email.value, now, None, None)];
      }
      return Done;
    }

    method UpdateCurrentUserEmailDeliverability(user: string, recipient: string, deliverable: bool, at: Time, now: Time) returns (reply: Reply)
      modifies this`users
      ensures (State(users, jobs), reply) == Do(State(old(users), jobs), Report(user, recipient, deliverable, at), now)
    {
      if user !in users || !ReportApplies(users[user], recipient, deliverable, at) { return Failed(NoRows); }
      users := users[user := ApplyReport(users[user], deliverable, at, now)];
      return Done;
    }
  }

  // ---- what every step keeps ----

  /** Active exactly when verified; pending always has a deadline; active addresses are not known to bounce. */
  ghost predicate Sound(u: User) {
    && (u.status == Active <==> u.verifiedAt.Some?)
    && (u.status == Pending ==> u.expiresAt.Some?)
    && (u.status == Active ==> u.deliverability != Undeliverable && u.expiresAt.None?)
  }

  ghost predicate Inv(s: State) { forall v | v in s.users :: Sound(s.users[v]) }

  function After(s: State, step: Step, now: Time): State { Do(s, step, now).0 }

  lemma StepKeeps(s: State, step: Step, now: Time)
    requires Inv(s)
    ensures Inv(After(s, step, now))
    ensures forall v | v in s.users :: v in After(s, step, now).users
  {}

  /** `undeliverable` stays as long as the address does. */
  lemma StepKeepsUndeliverable(s: State, step: Step, now: Time, v: string)
    requires v in s.users && s.users[v].deliverability == Undeliverable && s.users[v].status != Active
    ensures var s' := After(s, step, now);
            v in s'.users && (SameAddress(s'.users[v].email, s.users[v].email) ==> s'.users[v].deliverability == Undeliverable && s'.users[v].status != Active)
  {}

  datatype Event = Event(step: Step, now: Time)

  ghost function Run(s: State, events: seq<Event>): State {
    if events == [] then s else After(Run(s, events[..|events| - 1]), events[|events| - 1].step, events[|events| - 1].now)
  }

  lemma {:induction false} RunKeeps(s: State, events: seq<Event>)
    requires Inv(s)
    ensures Inv(Run(s, events)) && forall v | v in s.users :: v in Run(s, events).users
  {
    if events != [] {
      RunKeeps(s, events[..|events| - 1]);
      StepKeeps(Run(s, events[..|events| - 1]), events[|events| - 1].step, events[|events| - 1].now);
    }
  }

  /** Over every run from an empty table, each user is active exactly when verified, and so on. */
  lemma UsersStaySound(events: seq<Event>, v: string)
    requires v in Run(State(map[], map[]), events).users
    ensures var u := Run(State(map[], map[]), events).users[v];
            && (u.status == Active <==> u.verifiedAt.Some?)
            && (u.status == Pending ==> u.expiresAt.Some?)
            && (u.status == Active ==> u.deliverability != Undeliverable)
  {
    RunKeeps(State(map[], map[]), events);
  }

  /** The address has been the same, up to case, ever since. */
  ghost predicate AddressKept(s: State, events: seq<Event>, v: string)
    requires v in s.users
  {
    events == [] ||
    (var s' := Run(s, events);
     AddressKept(s, events[..|events| - 1], v) && v in s'.users && SameAddress(s'.users[v].email, s.users[v].email))
  }

  lemma {:induction false} UndeliverablePersists(s: State, events: seq<Event>, v: string)
    requires Inv(s) && v in s.users && s.users[v].deliverability == Undeliverable && AddressKept(s, events, v)
    ensures v in Run(s, events).users && SameAddress(Run(s, events).users[v].email, s.users[v].email)
    ensures Run(s, events).users[v].deliverability == Undeliverable && Run(s, events).users[v].status != Active
  {
    if events != [] {
      var n := |events| - 1;
      UndeliverablePersists(s, events[..n], v);
      StepKeepsUndeliverable(Run(s, events[..n]), events[n].step, events[n].now, v);
    }
  }

  /** A user becomes active only by presenting the unexpired token of a mail to the address the user
      has at that moment; a link mailed to an earlier address does nothing. */
  lemma ActivatesOnlyByToken(s: State, step: Step, now: Time, v: string)
    requires Inv(s) && v in s.users && s.users[v].status != Active
    ensures After(s, step, now).users[v].status == Active <==>
            && step.Verify? && step.user == v && step.job in s.jobs && s.jobs[step.job].user == v
            && SameAddress(s.jobs[step.job].recipient, step.email) && SameAddress(s.users[v].email, step.email)
            && s.jobs[step.job].tokenHash == Some(step.hash)
            && s.jobs[step.job].tokenExpiresAt.Some? && now < s.jobs[step.job].tokenExpiresAt.value
            && s.users[v].status == Pending && s.users[v].deliverability != Undeliverable
  {}

  // ---- what each step does ----

  /** Two addresses are the same exactly when they differ at most in the case of ASCII letters. */
  lemma SameUpToCase(a: string, b: string)
    ensures SameAddress(a, b) <==>
      |a| == |b| && forall i | 0 <= i < |a| ::
        a[i] == b[i] || ('a' <= a[i] <= 'z' && b[i] as int == a[i] as int - 32) || ('a' <= b[i] <= 'z' && a[i] as int == b[i] as int - 32)
  {
    if SameAddress(a, b) {
      assert |a| == |Lower(a)| == |Lower(b)| == |b|;
      forall i | 0 <= i < |a|
        ensures LowerChar(a[i]) == LowerChar(b[i])
      {
        assert Lower(a)[i] == Lower(b)[i];
      }
    }
  }

  /** A signup makes a pending user with seven days to verify, and one mail to the address given. */
  lemma SignUpExactly(s: State, user: string, email: string, j: JobId, now: Time)
    ensures var s', reply := Do(s, SignUp(user, email, j), now).0, Do(s, SignUp(user, email, j), now).1;
      && (reply == Done <==> user !in s.users && forall v | v in s.users :: !SameAddress(s.users[v].email, email))
      && s' == if reply != Done then s
               else State(s.users[user := User(email, Pending, None, Some(now + 604_800_000_000), Unconfirmed, None)],
                          s.jobs[j := Job(user, email, now, None, None)])
  {}

  /** The link a step presents belongs to a mail sent to this user at this address, and has not expired. */
  ghost predicate LinkOpen(s: State, step: Step, now: Time)
    requires step.Verify?
  {
    && step.job in s.jobs && s.jobs[step.job].user == step.user && SameAddress(s.jobs[step.job].recipient, step.email)
    && s.jobs[step.job].tokenExpiresAt.Some? && now < s.jobs[step.job].tokenExpiresAt.value
  }

  ghost predicate LinkWorks(s: State, step: Step, now: Time)
    requires step.Verify?
  {
    && LinkOpen(s, step, now) && s.jobs[step.job].tokenHash == Some(step.hash)
    && step.user in s.users && SameAddress(s.users[step.user].email, step.email)
  }

  /** A verification succeeds exactly with the unexpired link of a mail to the user's present address, unless that address
      bounces or the registration has lapsed. It makes the user active and deliverable, once; a second one changes nothing. */
  lemma VerifyExactly(s: State, step: Step, now: Time)
    requires Inv(s) && step.Verify?
    ensures var s', reply := Do(s, step, now).0, Do(s, step, now).1;
      && (reply == Done <==>
            LinkWorks(s, step, now) && s.users[step.user].status != Disabled && s.users[step.user].deliverability != Undeliverable)
      && if reply != Done then s' == s
         else
           var u := s.users[step.user];
           s' == if u.status == Active then s
                 else s.(users := s.users[step.user := User(u.email, Active, Some(now), None, Deliverable, Some(now))])
  {}

  /** Which error a refused verification returns. */
  lemma VerifyAnswers(s: State, step: Step, now: Time, e: Error)
    requires step.Verify?
    ensures Do(s, step, now).1 == Failed(e) <==>
      match e
      case TokenExpired =>
        && step.job in s.jobs && s.jobs[step.job].user == step.user && SameAddress(s.jobs[step.job].recipient, step.email)
        && !LinkOpen(s, step, now)
      case JobMismatch =>
        || step.job !in s.jobs || s.jobs[step.job].user != step.user || !SameAddress(s.jobs[step.job].recipient, step.email)
        || (LinkOpen(s, step, now) && s.jobs[step.job].tokenHash != Some(step.hash))
      case NoRows => LinkOpen(s, step, now) && s.jobs[step.job].tokenHash == Some(step.hash) && step.user !in s.users
      case AddressStale =>
        && LinkOpen(s, step, now) && s.jobs[step.job].tokenHash == Some(step.hash)
        && step.user in s.users && !SameAddress(s.users[step.user].email, step.email)
      case RegistrationDisabled => LinkWorks(s, step, now) && s.users[step.user].status == Disabled
      case AddressUndeliverable =>
        LinkWorks(s, step, now) && s.users[step.user].status != Disabled && s.users[step.user].deliverability == Undeliverable
      case _ => false
  {}

  /** From signup to activation: the link mailed to a new user activates the account until the link expires, and with
      another hash never does. */
  lemma SignUpLeadsToActive(s: State, user: string, email: string, j: JobId, t: Time, hash: string, expiresAt: Time, t': Time, presented: string, now: Time)
    requires Do(s, SignUp(user, email, j), t).1 == Done
    ensures var mailed := After(After(s, SignUp(user, email, j), t), IssueToken(j, hash, expiresAt), t');
      Do(mailed, Verify(user, email, j, presented), now) ==
        if expiresAt <= now then (mailed, Failed(TokenExpired))
        else if presented != hash then (mailed, Failed(JobMismatch))
        else (State(s.users[user := User(email, Active, Some(now), None, Deliverable, Some(now))],
                    s.jobs[j := Job(user, email, t, Some(hash), Some(expiresAt))]), Done)
  {
    var mailed := After(After(s, SignUp(user, email, j), t), IssueToken(j, hash, expiresAt), t');
    assert mailed == State(s.users[user := NewUser(email, t)], s.jobs[j := Job(user, email, t, Some(hash), Some(expiresAt))]);
    var u := User(email, Active, Some(now), None, Deliverable, Some(now));
    assert mailed.users[user := u] == s.users[user := u];
  }

  /** A resend is granted exactly to a user who is not verified, whose address does not bounce and to whose address no mail
      was created within the last minute. It restarts verification, with a new deadline only if the old one had passed. */
  lemma ResendExactly(s: State, user: string, j: JobId, now: Time)
    requires Inv(s)
    ensures var s', reply := Do(s, Resend(user, j), now).0, Do(s, Resend(user, j), now).1;
      && (reply == Done <==>
            && user in s.users && s.users[user].status != Active && s.users[user].deliverability != Undeliverable
            && forall i | i in s.jobs && s.jobs[i].user == user && SameAddress(s.jobs[i].recipient, s.users[user].email) :: s.jobs[i].createdAt + 60_000_000 <= now)
      && (reply == Failed(NoRows) <==> user !in s.users)
      && (reply == Failed(AlreadyVerified) <==> user in s.users && s.users[user].status == Active)
      && (reply == Failed(AddressUndeliverable) <==>
            user in s.users && s.users[user].status != Active && s.users[user].deliverability == Undeliverable)
      && if reply != Done then s' == s
         else
           var u := s.users[user];
           s' == State(s.users[user := User(u.email, Pending, None, if u.status == Disabled then Some(now + 604_800_000_000) else u.expiresAt, Unconfirmed, None)],
                       s.jobs[j := Job(user, u.email, now, None, None)])
  {
    if user in s.users && Cooling(s, user, now) {
      var i :| i in s.jobs && s.jobs[i].user == user && SameAddress(s.jobs[i].recipient, s.users[user].email) && now - s.jobs[i].createdAt < COOLDOWN;
    }
  }

  /** An update refuses only an unknown user or an address in use by another. A new address restarts registration and is
      mailed; the same address in another spelling is only stored. */
  lemma UpdateExactly(s: State, user: string, email: string, j: JobId, now: Time)
    ensures var s', reply := Do(s, Update(user, Some(email), j), now).0, Do(s, Update(user, Some(email), j), now).1;
      && (reply == Done <==> user in s.users && forall v | v in s.users && v != user :: !SameAddress(s.users[v].email, email))
      && if reply != Done then s' == s
         else if SameAddress(email, s.users[user].email) then s' == s.(users := s.users[user := s.users[user].(email := email)])
         else s' == State(s.users[user := User(email, Pending, None, Some(now + 604_800_000_000), Unconfirmed, None)],
                          s.jobs[j := Job(user, email, now, None, None)])
  {}

  /** Expiry disables exactly the pending users whose deadline has come. */
  lemma ExpireExactly(s: State, now: Time, v: string)
    requires Inv(s) && v in s.users
    ensures var s' := Do(s, Expire, now).0;
      && s' == s.(users := s'.users) && s'.users.Keys == s.users.Keys
      && s'.users[v] == if s.users[v].status == Pending && s.users[v].expiresAt.value <= now then s.users[v].(status := Disabled) else s.users[v]
  {}

  /** A report counts exactly when it is about the user's present address, is newer than the last one, and does not call
      an undeliverable address deliverable. A bounce takes verification away and sets a new deadline. */
  lemma ReportExactly(s: State, user: string, recipient: string, deliverable: bool, at: Time, now: Time)
    ensures var s', reply := Do(s, Report(user, recipient, deliverable, at), now).0, Do(s, Report(user, recipient, deliverable, at), now).1;
      && (reply == Done <==>
            && user in s.users && SameAddress(s.users[user].email, recipient)
            && (s.users[user].deliveryAt.Some? ==> s.users[user].deliveryAt.value < at)
            && (deliverable ==> s.users[user].deliverability != Undeliverable))
      && if reply != Done then s' == s
         else if deliverable then s' == s.(users := s.users[user := s.users[user].(deliverability := Deliverable, deliveryAt := Some(at))])
         else s' == s.(users := s.users[user := User(s.users[user].email, Pending, None, Some(now + 604_800_000_000), Undeliverable, Some(at))])
  {}
}
