/** Exactly-once transfers: what an idempotency key guarantees over whole runs. */
module Idempotency {
  import opened Common
  import opened Tables
  import opened Operations
  import opened LedgerInvariant
  import opened LedgerRuns

  /** No committed key row is left half-written. */
  ghost predicate KeysComplete(db: Db) { forall k | k in db.keys :: db.keys[k].result.Some? }

  lemma ApplyKeepsKeysComplete(db: Db, op: Op, now: Time)
    requires KeysComplete(db)
    ensures KeysComplete(After(db, op, now))
  {}

  lemma {:induction false} RunKeysComplete(steps: seq<Step>)
    ensures KeysComplete(Run(INITIAL, steps))
  {
    if steps != [] {
      RunKeysComplete(steps[..|steps| - 1]);
      ApplyKeepsKeysComplete(Run(INITIAL, steps[..|steps| - 1]), steps[|steps| - 1].op, steps[|steps| - 1].now);
    }
  }

  /** The "incomplete idempotency record" branch is unreachable. */
  lemma NeverIncomplete(steps: seq<Step>, op: Op, now: Time)
    ensures Apply(Run(INITIAL, steps), op, now) != Rejected(IncompleteRecord)
  {
    var db := Run(INITIAL, steps);
    RunKeysComplete(steps);
    if IsMoney(op) {
      PlanErrors(db, op, now);
    }
  }

  lemma {:induction false} MoveErrors(accounts: map<AccountId, Account>, moves: seq<Move>, e: Error)
    requires e != IncompleteRecord
    ensures ApplyMoves(accounts, moves, e) != Err(IncompleteRecord)
  {
    if moves != [] {
      MoveErrors(accounts, moves[..|moves| - 1], e);
    }
  }

  lemma PlanErrors(db: Db, op: Op, now: Time)
    requires IsMoney(op)
    ensures PrepareAndSettle(db, op, now) != Err(IncompleteRecord)
  {
    if Prepare(db, op, now).Ok? {
      MoveErrors(db.accounts, Prepare(db, op, now).value.moves, Prepare(db, op, now).value.shortfall);
    }
  }

  /** A call that moves money for key `k`: it is not a replay, and it commits. */
  ghost predicate Moves(db: Db, s: Step, k: KeyId) {
    && s.op.KeyedTransfer? && KeyOf(s.op) == k
    && var o := Apply(db, s.op, s.now); o.Committed? && !o.reply.replayed
  }

  /** The row a moving call leaves behind, and the money it moved. */
  lemma MoveLeavesRow(db: Db, s: Step, k: KeyId)
    requires Inv(db) && Moves(db, s, k)
    ensures var db', reply := After(db, s.op, s.now), Apply(db, s.op, s.now).reply;
      && db'.keys == db.keys[k := KeyRow(s.op.hash, Some(reply.receipt), s.now + KEY_LIFETIME)]
      && db'.postings == db.postings + Prepare(db, s.op, s.now).value.lines
      && reply.receipt.id == s.op.req.id
  {}

  /** The operations that can remove or replace the row of key `k`. */
  predicate UsesKey(op: Op, k: KeyId) { op.PurgeKeys? || (op.KeyedTransfer? && KeyOf(op) == k) }

  ghost predicate WithinLifetime(steps: seq<Step>, k: KeyId, end: Time) {
    forall i | 0 <= i < |steps| && UsesKey(steps[i].op, k) :: steps[i].now < end
  }

  /** Until the cleanup or a call with the same key runs at or past the expiry, the row stays. */
  lemma RowSurvives(db: Db, s: Step, k: KeyId)
    requires k in db.keys && (UsesKey(s.op, k) ==> s.now < db.keys[k].expiresAt)
    ensures k in After(db, s.op, s.now).keys && After(db, s.op, s.now).keys[k] == db.keys[k]
  {
    if !UsesKey(s.op, k) && !s.op.KeyedTransfer? {
      OthersKeepKeys(db, s);
    }
  }

  lemma OthersKeepKeys(db: Db, s: Step)
    requires !s.op.KeyedTransfer? && !s.op.PurgeKeys?
    ensures After(db, s.op, s.now).keys == db.keys
  {}

  lemma {:induction false} RowSurvivesRun(db: Db, steps: seq<Step>, k: KeyId)
    requires k in db.keys && WithinLifetime(steps, k, db.keys[k].expiresAt)
    ensures k in Run(db, steps).keys && Run(db, steps).keys[k] == db.keys[k]
  {
    if steps != [] {
      RowSurvivesRun(db, steps[..|steps| - 1], k);
      RowSurvives(Run(db, steps[..|steps| - 1]), steps[|steps| - 1], k);
    }
  }

  /** Once a call has moved money for `k`, every call with the same key, after any run in which neither
      the cleanup nor a call with the key reaches the end of its lifetime, changes nothing at all: the
      same hash gets the first receipt back and a different one is refused. */
  lemma LaterCallsReplay(db: Db, first: Step, k: KeyId, between: seq<Step>, s: Step)
    requires Inv(db) && Moves(db, first, k) && WithinLifetime(between, k, first.now + KEY_LIFETIME)
    requires s.op.KeyedTransfer? && KeyOf(s.op) == k && KeyWellFormed(s.op.key, s.op.hash) && s.now < first.now + KEY_LIFETIME
    ensures var db' := Run(After(db, first.op, first.now), between);
      && After(db', s.op, s.now) == db'
      && Apply(db', s.op, s.now) ==
           if s.op.hash == first.op.hash then Committed(db', Transferred(Apply(db, first.op, first.now).reply.receipt, true))
           else Rejected(IdempotencyConflict)
  {
    MoveLeavesRow(db, first, k);
    RowSurvivesRun(After(db, first.op, first.now), between, k);
  }

  lemma {:induction false} RunConcat(db: Db, steps: seq<Step>, i: nat)
    requires i <= |steps|
    ensures Run(db, steps) == Run(Run(db, steps[..i]), steps[i..])
  {
    if i == |steps| {
      assert steps[..i] == steps && steps[i..] == [];
    } else {
      var n := |steps| - 1;
      RunConcat(db, steps[..n], i);
      assert steps[..n][..i] == steps[..i] && steps[..n][i..] == steps[i..][..|steps[i..]| - 1];
    }
  }

  /** In any run, two calls can both move money for one key only if, after the first, the cleanup or a
      call with that key ran with a clock at or past the first key's expiry. */
  lemma AtMostOncePerLifetime(steps: seq<Step>, k: KeyId, i: nat, j: nat)
    requires i < j < |steps|
    requires Moves(Run(INITIAL, steps[..i]), steps[i], k) && Moves(Run(INITIAL, steps[..j]), steps[j], k)
    ensures exists m | i < m <= j :: UsesKey(steps[m].op, k) && steps[m].now >= steps[i].now + KEY_LIFETIME
  {
    ReachableIsSafe(steps[..i], "");
    RunThrough(steps, i, j);
    var end := steps[i].now + KEY_LIFETIME;
    if forall m | i < m <= j :: UsesKey(steps[m].op, k) ==> steps[m].now < end {
      StillWithin(steps, k, end, i, j);
      LaterCallsReplay(Run(INITIAL, steps[..i]), steps[i], k, steps[i + 1..j], steps[j]);
    }
  }

  lemma RunThrough(steps: seq<Step>, i: nat, j: nat)
    requires i < j <= |steps|
    ensures Run(INITIAL, steps[..j]) == Run(After(Run(INITIAL, steps[..i]), steps[i].op, steps[i].now), steps[i + 1..j])
  {
    assert steps[..j][..i + 1] == steps[..i + 1] && steps[..j][i + 1..] == steps[i + 1..j] && steps[..i + 1][..i] == steps[..i];
    RunConcat(INITIAL, steps[..j], i + 1);
  }

  lemma StillWithin(steps: seq<Step>, k: KeyId, end: Time, i: nat, j: nat)
    requires i < j < |steps| && forall m | i < m <= j :: UsesKey(steps[m].op, k) ==> steps[m].now < end
    ensures WithinLifetime(steps[i + 1..j], k, end)
  {
    var between := steps[i + 1..j];
    forall m | 0 <= m < |between| && UsesKey(between[m].op, k)
      ensures between[m].now < end
    {
      assert between[m] == steps[i + 1 + m];
    }
  }

  /** The row of key `k` is what the call `steps[i]` left when it moved money. */
  ghost predicate RowOf(steps: seq<Step>, i: nat, k: KeyId, row: KeyRow)
    requires i < |steps|
  {
    var db, s := Run(INITIAL, steps[..i]), steps[i];
    Moves(db, s, k) && row == KeyRow(s.op.hash, Some(Apply(db, s.op, s.now).reply.receipt), s.now + KEY_LIFETIME)
  }

  /** Every key row, and so every receipt that is ever replayed, comes from a call that moved money. */
  lemma {:induction false} RowsComeFromMoves(steps: seq<Step>, k: KeyId) returns (i: nat)
    requires k in Run(INITIAL, steps).keys
    ensures i < |steps| && RowOf(steps, i, k, Run(INITIAL, steps).keys[k])
  {
    var n := |steps| - 1;
    var db, s := Run(INITIAL, steps[..n]), steps[n];
    if k in db.keys && After(db, s.op, s.now).keys[k] == db.keys[k] {
      i := RowsComeFromMoves(steps[..n], k);
      assert steps[..n][..i] == steps[..i];
    } else {
      i := n;
      ReachableIsSafe(steps[..n], "");
      RowAppears(db, s, k);
    }
  }

  lemma OthersAddNoRow(db: Db, s: Step, k: KeyId)
    requires !s.op.KeyedTransfer? && k in After(db, s.op, s.now).keys
    ensures k in db.keys && After(db, s.op, s.now).keys[k] == db.keys[k]
  {
    if !s.op.PurgeKeys? {
      OthersKeepKeys(db, s);
    }
  }

  lemma RowAppears(db: Db, s: Step, k: KeyId)
    requires Inv(db) && k in After(db, s.op, s.now).keys && (k in db.keys ==> After(db, s.op, s.now).keys[k] != db.keys[k])
    ensures Moves(db, s, k)
    ensures After(db, s.op, s.now).keys[k] == KeyRow(s.op.hash, Some(Apply(db, s.op, s.now).reply.receipt), s.now + KEY_LIFETIME)
  {
    if !s.op.KeyedTransfer? {
      OthersAddNoRow(db, s, k);
    } else if Moves(db, s, k) {
      MoveLeavesRow(db, s, k);
    }
  }

  /** The run without its failed attempts. */
  function Successes(db: Db, steps: seq<Step>): seq<Step> {
    if steps == [] then []
    else
      var n := |steps| - 1;
      Successes(db, steps[..n]) + if Apply(Run(db, steps[..n]), steps[n].op, steps[n].now).Committed? then [steps[n]] else []
  }

  /** Failed attempts leave their keys unused: without them the run ends in the same state, none of the
      remaining calls fails, and any later call gets the same reply. */
  lemma {:induction false} FailuresLeaveNoTrace(db: Db, steps: seq<Step>, later: Step)
    ensures Run(db, Successes(db, steps)) == Run(db, steps)
    ensures Apply(Run(db, Successes(db, steps)), later.op, later.now) == Apply(Run(db, steps), later.op, later.now)
    ensures Successes(db, Successes(db, steps)) == Successes(db, steps)
  {
    if steps != [] {
      var n := |steps| - 1;
      FailuresLeaveNoTrace(db, steps[..n], steps[n]);
      var kept := Successes(db, steps[..n]);
      if Apply(Run(db, steps[..n]), steps[n].op, steps[n].now).Committed? {
        assert (kept + [steps[n]])[..|kept|] == kept;
      } else {
        assert Successes(db, steps) == kept;
      }
    }
  }

  // ---- when a key counts, by the times stored ----

  /** A keyed call is refused for its form, answered from its key's row, or performed as a plain transfer whose
      receipt is filed for the next 24 hours: which one depends only on whether the row's expiry lies ahead. */
  lemma KeyedAnswers(db: Db, op: Op, now: Time)
    requires op.KeyedTransfer?
    ensures var k := KeyId(op.req.username, op.key);
      Apply(db, op, now) ==
        if op.key == "" || |op.key| > 128 || |op.hash| != 32 then Rejected(InvalidIdempotencyKey)
        else if k in db.keys && now < db.keys[k].expiresAt then
          if db.keys[k].hash != op.hash then Rejected(IdempotencyConflict)
          else if db.keys[k].result.None? then Rejected(IncompleteRecord)
          else Committed(db, Transferred(db.keys[k].result.value, true))
        else
          match Apply(db, Transfer(op.req), now)
          case Rejected(e) => Rejected(e)
          case Committed(db', reply) =>
            Committed(db'.(keys := db.keys[k := KeyRow(op.hash, Some(reply.receipt), now + 24 * 3600 * 1_000_000)]), reply)
  {}

  /** A row whose expiry has come is as good as none: the call answers and leaves what it would without the row. */
  lemma ExpiredRowIsUnused(db: Db, s: Step, k: KeyId)
    requires s.op.KeyedTransfer? && KeyOf(s.op) == k && k in db.keys && db.keys[k].expiresAt <= s.now
    ensures Apply(db, s.op, s.now) == Apply(db.(keys := db.keys - {k}), s.op, s.now)
  {
    var without := db.(keys := db.keys - {k});
    PlainTransferIgnoresKeys(db, without, s.op.req, s.now);
    KeyedAnswers(db, s.op, s.now);
    KeyedAnswers(without, s.op, s.now);
    var answer := Apply(db, Transfer(s.op.req), s.now);
    if answer.Committed? {
      var row := KeyRow(s.op.hash, Some(answer.reply.receipt), s.now + KEY_LIFETIME);
      assert db.keys[k := row] == without.keys[k := row];
    }
  }

  lemma PlainTransferIgnoresKeys(db: Db, other: Db, r: TransferRequest, now: Time)
    requires other == db.(keys := other.keys)
    ensures var a, b := Apply(db, Transfer(r), now), Apply(other, Transfer(r), now);
      match a
      case Rejected(e) => b == Rejected(e)
      case Committed(db', reply) => b == Committed(db'.(keys := other.keys), reply) && db'.keys == db.keys
  {}

  /** The other half of a key's life: 24 hours after a call has moved money for it, a call with the key, whatever its
      hash, is a new call and may move money again. */
  lemma LifetimeEnds(db: Db, first: Step, k: KeyId, between: seq<Step>, s: Step)
    requires Inv(db) && Moves(db, first, k) && WithinLifetime(between, k, first.now + KEY_LIFETIME)
    requires s.op.KeyedTransfer? && KeyOf(s.op) == k && s.now >= first.now + 24 * 3600 * 1_000_000
    ensures var db' := Run(After(db, first.op, first.now), between);
      k in db'.keys && Apply(db', s.op, s.now) == Apply(db'.(keys := db'.keys - {k}), s.op, s.now)
  {
    MoveLeavesRow(db, first, k);
    RowSurvivesRun(After(db, first.op, first.now), between, k);
    ExpiredRowIsUnused(Run(After(db, first.op, first.now), between), s, k);
  }

  /** The cleanup keeps exactly the rows whose expiry lies ahead, and touches nothing else. */
  lemma PurgeKeepsUnexpired(db: Db, now: Time)
    ensures var db' := After(db, PurgeKeys, now);
      && db' == db.(keys := db'.keys)
      && forall k :: (k in db'.keys <==> k in db.keys && now < db.keys[k].expiresAt) && (k in db'.keys ==> db'.keys[k] == db.keys[k])
  {}
}
