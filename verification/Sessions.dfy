/** Login sessions: one live session per user, refresh rotation, and reuse detection. */
module Sessions {
  import opened Common

  type SessionId = nat
  type TokenId = nat

  /** A refresh token as the server knows it; hash and ID are drawn together. */
  datatype Token = Token(id: TokenId, hash: string)
  datatype Session = Session(user: string, token: Token, device: string, expiresAt: Time, revokedAt: Option<Time>)
  datatype Error = NoRows | SessionMismatch | SessionRevoked | SessionExpired | DeviceMismatch | RefreshTokenReuse | DuplicateKey
  datatype Reply = Done | Failed(error: Error)

  /** `drawn` records every token ID ever issued. */
  datatype State = State(users: set<string>, sessions: map<SessionId, Session>, drawn: set<TokenId>)

  datatype Step =
    | Login(id: SessionId, user: string, token: Token, device: string, expiresAt: Time)
    | Refresh(id: SessionId, user: string, presented: Token, device: string, next: Token)
    | Logout(id: SessionId, device: string)
    | LogoutAll(user: string)

  // ---- the operations ----

  function RevokeUser(sessions: map<SessionId, Session>, user: string, now: Time): map<SessionId, Session> {
    map id | id in sessions ::
      if sessions[id].user == user && sessions[id].revokedAt.None? then sessions[id].(revokedAt := Some(now)) else sessions[id]
  }

  /** The checks that `ValidateSession` and `RotateRefreshTokenTx` share. */
  function Check(sessions: map<SessionId, Session>, id: SessionId, user: string, device: string, now: Time): Option<Error> {
    if id !in sessions then Some(NoRows)
    else if sessions[id].user != user then Some(SessionMismatch)
    else if sessions[id].revokedAt.Some? then Some(SessionRevoked)
    else if sessions[id].expiresAt <= now then Some(SessionExpired)
    else if sessions[id].device != device then Some(DeviceMismatch)
    else None
  }

  type Table = map<SessionId, Session>

  function DoLogin(users: set<string>, sessions: Table, step: Step, now: Time): (Table, Reply)
    requires step.Login?
  {
    if step.user !in users then (sessions, Failed(NoRows))
    else if step.id in sessions then (sessions, Failed(DuplicateKey))
    else (RevokeUser(sessions, step.user, now)[step.id := Session(step.user, step.token, step.device, step.expiresAt, None)], Done)
  }

  function DoRefresh(sessions: Table, step: Step, now: Time): (Table, Reply)
    requires step.Refresh?
  {
    var check := Check(sessions, step.id, step.user, step.device, now);
    if check.Some? then (sessions, Failed(check.value))
    else
      assert step.id in sessions;
      var session := sessions[step.id];
      if session.token != step.presented then (sessions[step.id := session.(revokedAt := Some(now))], Failed(RefreshTokenReuse))
      else (sessions[step.id := session.(token := step.next)], Done)
  }

  function DoLogout(sessions: Table, step: Step, now: Time): (Table, Reply)
    requires step.Logout?
  {
    if step.id !in sessions then (sessions, Done)
    else if sessions[step.id].device != step.device then (sessions, Failed(DeviceMismatch))
    else if sessions[step.id].revokedAt.Some? then (sessions, Done)
    else (sessions[step.id := sessions[step.id].(revokedAt := Some(now))], Done)
  }

  function DoOn(s: State, step: Step, now: Time): (Table, Reply) {
    match step
    case Login(_, _, _, _, _) => DoLogin(s.users, s.sessions, step, now)
    case Refresh(_, _, _, _, _) => DoRefresh(s.sessions, step, now)
    case Logout(_, _) => DoLogout(s.sessions, step, now)
    case LogoutAll(user) => (RevokeUser(s.sessions, user, now), Done)
  }

  /** The token a step issues, whether or not the step then succeeds. */
  function Issued(step: Step): Option<Token> {
    match step
    case Login(_, _, t, _, _) => Some(t)
    case Refresh(_, _, _, _, t) => Some(t)
    case _ => None
  }

  function Do(s: State, step: Step, now: Time): State {
    var s' := s.(sessions := DoOn(s, step, now).0);
    if Issued(step).Some? then s'.(drawn := s.drawn + {Issued(step).value.id}) else s'
  }

  function ReplyTo(s: State, step: Step, now: Time): Reply { DoOn(s, step, now).1 }

  class SessionStore {
    var users: set<string>
    var sessions: map<SessionId, Session>

    constructor (users: set<string>)
      ensures this.users == users && sessions == map[]
    {
      this.users, sessions := users, map[];
    }

    /** Locks the user row, revokes whatever is live, then inserts the new session. */
    method CreateExclusiveSessionTx(step: Step, now: Time) returns (reply: Reply)
      requires step.Login?
      modifies this
      ensures users == old(users) && (sessions, reply) == DoLogin(users, old(sessions), step, now)
    {
      if step.user !in users { return Failed(NoRows); }
      var before := sessions;
      RevokeAllUserSessions(step.user, now);
      if step.id in sessions {
        sessions := before;
        return Failed(DuplicateKey);
      }
      sessions := sessions[step.id := Session(step.user, step.token, step.device, step.expiresAt, None)];
      return Done;
    }

    method RevokeAllUserSessions(user: string, now: Time)
      modifies this`sessions
      ensures sessions == RevokeUser(old(sessions), user, now)
    {
      sessions := map id | id in sessions ::
        if sessions[id].user == user && sessions[id].revokedAt.None? then sessions[id].(revokedAt := Some(now)) else sessions[id];
    }

    method ValidateSession(id: SessionId, user: string, device: string, now: Time) returns (error: Option<Error>)
      ensures error.None? <==>
              id in sessions && sessions[id].user == user && sessions[id].revokedAt.None? && now < sessions[id].expiresAt && sessions[id].device == device
      ensures error == Check(sessions, id, user, device, now)
      ensures (error == Some(NoRows) <==> id !in sessions) && (error == Some(SessionMismatch) <==> id in sessions && sessions[id].user != user)
      ensures error == Some(SessionRevoked) <==> id in sessions && sessions[id].user == user && sessions[id].revokedAt.Some?
      ensures error == Some(SessionExpired) <==>
              id in sessions && sessions[id].user == user && sessions[id].revokedAt.None? && sessions[id].expiresAt <= now
    {
      if id !in sessions { return Some(NoRows); }
      var session := sessions[id];
      if session.user != user { return Some(SessionMismatch); }
      if session.revokedAt.Some? { return Some(SessionRevoked); }
      if !(now < session.expiresAt) { return Some(SessionExpired); }
      if session.device != device { return Some(DeviceMismatch); }
      return None;
    }

    method RotateRefreshTokenTx(step: Step, now: Time) returns (reply: Reply)
      requires step.Refresh?
      modifies this`sessions
      ensures (sessions, reply) == DoRefresh(old(sessions), step, now)
    {
      var error := ValidateSession(step.id, step.user, step.device, now);
      if error.Some? { return Failed(error.value); }
      var session := sessions[step.id];
      if session.token.hash != step.presented.hash || session.token.id != step.presented.id {
        sessions := sessions[step.id := session.(revokedAt := Some(now))];
        return Failed(RefreshTokenReuse);
      }
      sessions := sessions[step.id := session.(token := step.next)];
      return Done;
    }

    method RevokeSessionTx(step: Step, now: Time) returns (reply: Reply)
      requires step.Logout?
      modifies this`sessions
      ensures (sessions, reply) == DoLogout(old(sessions), step, now)
    {
      if step.id !in sessions { return Done; }
      if sessions[step.id].device != step.device { return Failed(DeviceMismatch); }
      if sessions[step.id].revokedAt.None? {
        sessions := sessions[step.id := sessions[step.id].(revokedAt := Some(now))];
      }
      return Done;
    }
  }

  // ---- runs ----

  datatype Event = Event(step: Step, now: Time)

  /** Every issued token is new. */
  ghost predicate Fresh(s: State, step: Step) { Issued(step).Some? ==> Issued(step).value.id !in s.drawn }

  ghost predicate CanRun(s: State, events: seq<Event>) {
    events == [] || (var n := |events| - 1; CanRun(s, events[..n]) && Fresh(Run(s, events[..n]), events[n].step))
  }

  ghost function Run(s: State, events: seq<Event>): State {
    if events == [] then s else Do(Run(s, events[..|events| - 1]), events[|events| - 1].step, events[|events| - 1].now)
  }

  ghost predicate Live(s: State, id: SessionId) { id in s.sessions && s.sessions[id].revokedAt.None? }

  ghost predicate OneLive(s: State) {
    forall i, j | Live(s, i) && Live(s, j) && s.sessions[i].user == s.sessions[j].user :: i == j
  }

  /** No two sessions hold the same token. */
  ghost predicate TokensHeldOnce(s: State) {
    && (forall i | i in s.sessions :: s.sessions[i].token.id in s.drawn)
    && (forall i, j | i in s.sessions && j in s.sessions && s.sessions[i].token.id == s.sessions[j].token.id :: i == j)
  }

  ghost predicate Inv(s: State) { OneLive(s) && TokensHeldOnce(s) }

  /** Sessions are never deleted, revocation is permanent, and user, device and expiry never change. */
  ghost predicate Persists(s: State, s': State) {
    && s.drawn <= s'.drawn
    && forall i | i in s.sessions ::
         && i in s'.sessions
         && s'.sessions[i] == s.sessions[i].(token := s'.sessions[i].token, revokedAt := s'.sessions[i].revokedAt)
         && (s.sessions[i].revokedAt.Some? ==> s'.sessions[i] == s.sessions[i])
  }

  /** An issued token that no session holds any more. */
  ghost predicate Spent(s: State, t: TokenId) { t in s.drawn && forall i | i in s.sessions :: s.sessions[i].token.id != t }

  lemma StepKeepsOneLive(s: State, step: Step, now: Time)
    requires OneLive(s)
    ensures OneLive(Do(s, step, now))
  {
    var s' := Do(s, step, now);
    forall i, j | Live(s', i) && Live(s', j) && s'.sessions[i].user == s'.sessions[j].user
      ensures i == j
    {
      if step.Login? && ReplyTo(s, step, now) == Done && (i == step.id || j == step.id) {
        assert s'.sessions[i].user == step.user;
      } else {
        assert Live(s, i) && Live(s, j);
      }
    }
  }

  lemma StepKeepsTokens(s: State, step: Step, now: Time)
    requires TokensHeldOnce(s) && Fresh(s, step)
    ensures TokensHeldOnce(Do(s, step, now))
  {}

  lemma StepPersists(s: State, step: Step, now: Time)
    ensures Persists(s, Do(s, step, now))
  {}

  lemma StepKeeps(s: State, step: Step, now: Time)
    requires Inv(s) && Fresh(s, step)
    ensures Inv(Do(s, step, now)) && Persists(s, Do(s, step, now))
  {
    StepKeepsOneLive(s, step, now);
    StepKeepsTokens(s, step, now);
    StepPersists(s, step, now);
  }

  lemma SpentStays(s: State, step: Step, now: Time, t: TokenId)
    requires Inv(s) && Fresh(s, step) && Spent(s, t)
    ensures Spent(Do(s, step, now), t)
  {}

  lemma {:induction false} RunKeeps(s: State, events: seq<Event>)
    requires Inv(s) && CanRun(s, events)
    ensures Inv(Run(s, events)) && Persists(s, Run(s, events))
  {
    if events != [] {
      var n := |events| - 1;
      RunKeeps(s, events[..n]);
      StepKeeps(Run(s, events[..n]), events[n].step, events[n].now);
    }
  }

  lemma {:induction false} SpentForever(s: State, events: seq<Event>, t: TokenId)
    requires Inv(s) && CanRun(s, events) && Spent(s, t)
    ensures Spent(Run(s, events), t)
  {
    if events != [] {
      var n := |events| - 1;
      SpentForever(s, events[..n], t);
      RunKeeps(s, events[..n]);
      SpentStays(Run(s, events[..n]), events[n].step, events[n].now, t);
    }
  }

  function Empty(users: set<string>): State { State(users, map[], {}) }

  /** In every reachable state each user has at most one session that is not revoked. */
  lemma OneLiveSession(users: set<string>, events: seq<Event>, i: SessionId, j: SessionId)
    requires CanRun(Empty(users), events)
    ensures var s := Run(Empty(users), events);
            Live(s, i) && Live(s, j) && s.sessions[i].user == s.sessions[j].user ==> i == j
  {
    RunKeeps(Empty(users), events);
  }

  /** A successful refresh spends the presented token. */
  lemma RefreshSpends(s: State, step: Step, now: Time)
    requires Inv(s) && Fresh(s, step) && step.Refresh? && ReplyTo(s, step, now) == Done
    ensures Spent(Do(s, step, now), step.presented.id)
  {}

  lemma SpentCannotRefresh(s: State, step: Step, now: Time)
    requires step.Refresh? && Spent(s, step.presented.id)
    ensures ReplyTo(s, step, now) != Done
  {}

  lemma {:induction false} CanRunPrefix(s: State, events: seq<Event>, k: nat)
    requires k <= |events| && CanRun(s, events)
    ensures CanRun(s, events[..k])
  {
    if k == |events| {
      assert events[..k] == events;
    } else {
      CanRunPrefix(s, events[..|events| - 1], k);
      assert events[..|events| - 1][..k] == events[..k];
    }
  }

  /** After a successful refresh, its token is spent ever after. */
  lemma {:induction false} SpentSince(s: State, events: seq<Event>, i: nat)
    requires Inv(s) && CanRun(s, events) && i < |events| && events[i].step.Refresh?
    requires ReplyTo(Run(s, events[..i]), events[i].step, events[i].now) == Done
    ensures Spent(Run(s, events), events[i].step.presented.id)
  {
    var n := |events| - 1;
    RunKeeps(s, events[..n]);
    if i == n {
      RefreshSpends(Run(s, events[..n]), events[n].step, events[n].now);
    } else {
      assert events[..n][..i] == events[..i];
      SpentSince(s, events[..n], i);
      SpentStays(Run(s, events[..n]), events[n].step, events[n].now, events[i].step.presented.id);
    }
  }

  /** Over any run, a refresh token is exchanged at most once. */
  lemma ExchangedAtMostOnce(s: State, events: seq<Event>, i: nat, j: nat)
    requires Inv(s) && CanRun(s, events) && i < j < |events| && events[i].step.Refresh? && events[j].step.Refresh?
    requires ReplyTo(Run(s, events[..i]), events[i].step, events[i].now) == Done
    requires ReplyTo(Run(s, events[..j]), events[j].step, events[j].now) == Done
    ensures events[i].step.presented.id != events[j].step.presented.id
  {
    CanRunPrefix(s, events, j);
    assert events[..j][..i] == events[..i];
    SpentSince(s, events[..j], i);
    if events[i].step.presented.id == events[j].step.presented.id {
      SpentCannotRefresh(Run(s, events[..j]), events[j].step, events[j].now);
    }
  }

  /** Neither the session check nor a refresh succeeds. */
  ghost predicate Dead(s: State, id: SessionId) {
    forall user, device, now :: Check(s.sessions, id, user, device, now).Some?
  }

  lemma RevokedIsDead(s: State, id: SessionId)
    requires id in s.sessions && s.sessions[id].revokedAt.Some?
    ensures Dead(s, id)
  {}

  /** A token other than the current one, presented from the bound device on a live session, revokes
      it; from then on nothing of that session validates or rotates. */
  lemma ReuseKillsSession(s: State, step: Step, now: Time, later: seq<Event>)
    requires Inv(s) && Fresh(s, step) && step.Refresh? && Check(s.sessions, step.id, step.user, step.device, now).None?
    requires s.sessions[step.id].token != step.presented && CanRun(Do(s, step, now), later)
    ensures ReplyTo(s, step, now) == Failed(RefreshTokenReuse)
    ensures Dead(Run(Do(s, step, now), later), step.id)
  {
    StepKeeps(s, step, now);
    RunKeeps(Do(s, step, now), later);
    RevokedIsDead(Run(Do(s, step, now), later), step.id);
  }

  /** In particular a token that was exchanged before: replaying it ends the session for good. */
  lemma SupersededTokenKillsSession(s: State, first: Step, now: Time, between: seq<Event>, second: Step, t: Time, later: seq<Event>)
    requires Inv(s) && Fresh(s, first) && first.Refresh? && ReplyTo(s, first, now) == Done
    requires CanRun(Do(s, first, now), between) && second.Refresh? && second.presented == first.presented
    requires var s2 := Run(Do(s, first, now), between);
             && Fresh(s2, second) && Check(s2.sessions, second.id, second.user, second.device, t).None?
             && CanRun(Do(s2, second, t), later)
    ensures var s2 := Run(Do(s, first, now), between);
            ReplyTo(s2, second, t) == Failed(RefreshTokenReuse) && Dead(Run(Do(s2, second, t), later), second.id)
  {
    StepKeeps(s, first, now);
    RefreshSpends(s, first, now);
    SpentForever(Do(s, first, now), between, first.presented.id);
    RunKeeps(Do(s, first, now), between);
    ReuseKillsSession(Run(Do(s, first, now), between), second, t, later);
  }

  // ---- what each step does ----

  /** The check succeeds exactly on the user's own live session, before its expiry and from its device;
      otherwise it names the first of these that fails. */
  lemma CheckIsExact(sessions: Table, id: SessionId, user: string, device: string, now: Time)
    ensures Check(sessions, id, user, device, now).None? <==>
            id in sessions && sessions[id].user == user && sessions[id].revokedAt.None? && now < sessions[id].expiresAt && sessions[id].device == device
    ensures Check(sessions, id, user, device, now) == Some(NoRows) <==> id !in sessions
    ensures Check(sessions, id, user, device, now) == Some(SessionMismatch) <==> id in sessions && sessions[id].user != user
    ensures Check(sessions, id, user, device, now) == Some(SessionRevoked) <==> id in sessions && sessions[id].user == user && sessions[id].revokedAt.Some?
    ensures Check(sessions, id, user, device, now) == Some(SessionExpired) <==>
            id in sessions && sessions[id].user == user && sessions[id].revokedAt.None? && sessions[id].expiresAt <= now
    ensures Check(sessions, id, user, device, now) == Some(DeviceMismatch) <==>
            id in sessions && sessions[id].user == user && sessions[id].revokedAt.None? && now < sessions[id].expiresAt && sessions[id].device != device
  {}

  /** After a login the new session is the user's only live one; it checks out until it expires, from its device alone,
      and its token can be exchanged. Other users' sessions are untouched. */
  lemma LoginWorks(s: State, step: Step, now: Time, device: string, t: Time, next: Token)
    requires step.Login?
    ensures ReplyTo(s, step, now) == (if step.user !in s.users then Failed(NoRows) else if step.id in s.sessions then Failed(DuplicateKey) else Done)
    ensures var s' := Do(s, step, now);
      if ReplyTo(s, step, now) != Done then s'.sessions == s.sessions
      else
        && (Check(s'.sessions, step.id, step.user, device, t).None? <==> t < step.expiresAt && device == step.device)
        && (t < step.expiresAt ==> ReplyTo(s', Refresh(step.id, step.user, step.token, step.device, next), t) == Done)
        && (forall i | i in s.sessions :: i in s'.sessions && if s.sessions[i].user == step.user then s'.sessions[i].revokedAt.Some? else s'.sessions[i] == s.sessions[i])
  {
    assert ReplyTo(s, step, now) == Done ==> step.id in Do(s, step, now).sessions;
  }

  /** A refresh succeeds exactly with the current token on a session that checks out. The token it issues is then the
      current one: it can be exchanged in turn until the session expires. Nothing else changes. */
  lemma RotationWorks(s: State, step: Step, now: Time, t: Time, next: Token)
    requires step.Refresh?
    ensures ReplyTo(s, step, now) == Done <==>
      && step.id in s.sessions && s.sessions[step.id].user == step.user && s.sessions[step.id].revokedAt.None? && now < s.sessions[step.id].expiresAt
      && s.sessions[step.id].device == step.device && s.sessions[step.id].token == step.presented
    ensures var s' := Do(s, step, now);
      ReplyTo(s, step, now) == Done ==>
        && s'.sessions.Keys == s.sessions.Keys && s'.sessions - {step.id} == s.sessions - {step.id}
        && s'.sessions[step.id] == s.sessions[step.id].(token := step.next)
        && (t < s.sessions[step.id].expiresAt ==> ReplyTo(s', Refresh(step.id, step.user, step.next, step.device, next), t) == Done)
  {}

  /** A logout from the bound device ends the session for good; from any other device it is refused. Either way no other
      session changes. */
  lemma LogoutKillsSession(s: State, step: Step, now: Time, later: seq<Event>)
    requires Inv(s) && step.Logout? && CanRun(Do(s, step, now), later)
    ensures ReplyTo(s, step, now) == if step.id in s.sessions && s.sessions[step.id].device != step.device then Failed(DeviceMismatch) else Done
    ensures Do(s, step, now).sessions - {step.id} == s.sessions - {step.id}
    ensures if step.id in s.sessions && s.sessions[step.id].device == step.device then Dead(Run(Do(s, step, now), later), step.id)
            else Do(s, step, now).sessions == s.sessions
  {
    StepKeeps(s, step, now);
    RunKeeps(Do(s, step, now), later);
    if step.id in s.sessions && s.sessions[step.id].device == step.device {
      RevokedIsDead(Run(Do(s, step, now), later), step.id);
    }
  }

  /** Revoking all of a user's sessions ends each of them for good and leaves everyone else's alone. */
  lemma LogoutAllKillsSessions(s: State, user: string, now: Time, later: seq<Event>, id: SessionId)
    requires Inv(s) && id in s.sessions && CanRun(Do(s, LogoutAll(user), now), later)
    ensures if s.sessions[id].user == user then Dead(Run(Do(s, LogoutAll(user), now), later), id)
            else id in Do(s, LogoutAll(user), now).sessions && Do(s, LogoutAll(user), now).sessions[id] == s.sessions[id]
  {
    StepKeeps(s, LogoutAll(user), now);
    RunKeeps(Do(s, LogoutAll(user), now), later);
    if s.sessions[id].user == user {
      RevokedIsDead(Run(Do(s, LogoutAll(user), now), later), id);
    }
  }
}
