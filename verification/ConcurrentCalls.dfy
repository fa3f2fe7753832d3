/** What the committed log of an interleaving says about keys and debits. */
module ConcurrentCalls {
  import opened Common
  import opened Tables
  import opened Operations
  import opened LedgerInvariant
  import opened LedgerRuns
  import opened Idempotency
  import opened Interleaving
  import opened Serializability
  import opened CommitOrder

  /** A keyed transfer in the log moved money: replays are not logged. */
  lemma LoggedKeysMove(trace: seq<Sys>, i: nat, a: nat)
    requires Execution(trace) && i < |trace| && a < |trace[i].log| && trace[i].log[a].op.KeyedTransfer?
    ensures Moves(Run(INITIAL, trace[i].log[..a]), trace[i].log[a], KeyOf(trace[i].log[a].op))
  {
    var j := LogIsCommits(trace, i, a);
    InterleavingIsSerial(trace, j);
    var s, s', step := trace[j], trace[j + 1], trace[i].log[a];
    var p :| Commits(s, s', p) && CommitOf(s, s', s.work[p]) && !Replays(s.work[p]) && step == Step(s.work[p].op, s.work[p].now);
    CommitMoves(s, s.work[p]);
  }

  /** The commit of a keyed call that has a plan is a move, not a replay. */
  lemma CommitMoves(s: Sys, w: Work)
    requires SysInv(s) && WorkOk(s, w) && w.stage.Commit? && w.op.KeyedTransfer? && !Replays(w)
    ensures Moves(s.db, Step(w.op, w.now), KeyOf(w.op))
  {
    SerialFacts(s);
    CommitIsApply(s.db, w);
  }

  /** However calls overlap, two committed calls with one key both move money only if, between them, the
      cleanup or a call with that key committed that had started at or past the end of the first key's lifetime. */
  lemma ExactlyOnce(trace: seq<Sys>, i: nat, a: nat, b: nat, k: KeyId)
    requires Execution(trace) && i < |trace| && a < b < |trace[i].log|
    requires var log := trace[i].log;
             log[a].op.KeyedTransfer? && KeyOf(log[a].op) == k && log[b].op.KeyedTransfer? && KeyOf(log[b].op) == k
    ensures var log := trace[i].log;
            exists m | a < m <= b :: UsesKey(log[m].op, k) && log[m].now >= log[a].now + KEY_LIFETIME
  {
    LoggedKeysMove(trace, i, a);
    LoggedKeysMove(trace, i, b);
    AtMostOncePerLifetime(trace[i].log, k, a, b);
  }

  /** A committed replay returns the receipt of a committed call that moved money with the same key and hash. */
  lemma ReplaysReturnAMove(trace: seq<Sys>, i: nat, p: Pid) returns (a: nat)
    requires Execution(trace) && i < |trace| && p in trace[i].work && trace[i].work[p].stage.Commit? && Replays(trace[i].work[p])
    ensures var s, w := trace[i], trace[i].work[p];
            && KeyOf(w.op) in s.db.keys && a < |s.log|
            && RowOf(s.log, a, KeyOf(w.op), s.db.keys[KeyOf(w.op)]) && s.log[a].op.hash == w.op.hash
  {
    InterleavingIsSerial(trace, i);
    assert WorkOk(trace[i], trace[i].work[p]);
    a := RowsComeFromMoves(trace[i].log, KeyOf(trace[i].work[p].op));
  }

  /** No statement of any interleaving meets an incomplete key record. */
  lemma NeverIncompleteRecord(trace: seq<Sys>, i: nat, p: Pid)
    requires Execution(trace) && i < |trace| && p in trace[i].work && !trace[i].work[p].stage.Commit?
    ensures Shaped(trace[i].work[p]) && Exec(trace[i].db, trace[i].work[p]) != Fail(IncompleteRecord)
  {
    InterleavingIsSerial(trace, i);
    RunKeysComplete(trace[i].log);
    assert WorkOk(trace[i], trace[i].work[p]);
    StatementErrors(trace[i].db, trace[i].work[p]);
  }

  lemma StatementErrors(db: Db, w: Work)
    requires Good(db, w) && !w.stage.Commit? && KeysComplete(db)
    ensures Exec(db, w) != Fail(IncompleteRecord)
  {
    if OnKey(w.stage) {
    } else if Reading(w.stage) {
    } else if w.stage.Decide? {
      DecideErrors(db, w);
    } else if Writing(w.stage) {
      WriteErrors(db, w);
    }
  }

  lemma WriteErrors(db: Db, w: Work)
    requires Good(db, w) && Writing(w.stage)
    ensures ExecWrite(db, w) != Fail(IncompleteRecord)
  {
    PlanShortfall(Seen(db, w), w.op, w.now);
  }

  lemma PlanShortfall(db: Db, op: Op, now: Time)
    requires IsMoney(op)
    ensures Prepare(db, op, now).Ok? ==> Prepare(db, op, now).value.shortfall != IncompleteRecord
    ensures Prepare(db, op, now) != Err(IncompleteRecord)
  {}

  lemma DecideErrors(db: Db, w: Work)
    requires Good(db, w) && w.stage.Decide?
    ensures ExecDecide(db, w) != Fail(IncompleteRecord)
  {
    if IsMoney(w.op) {
      PlanShortfall(Seen(db, w), w.op, w.now);
    }
  }

  /** Whatever else is open, the commit of an operation lowers only the balances that operation may lower;
      in particular a frozen account falls only through a reversal. */
  lemma CommitDebits(trace: seq<Sys>, i: nat, p: Pid)
    requires Execution(trace) && i + 1 < |trace| && Commits(trace[i], trace[i + 1], p)
    ensures DebitsAllowed(trace[i].db, trace[i + 1].db, trace[i].work[p].op)
  {
    InterleavingIsSerial(trace, i);
    CommitsKeeps(trace[i], trace[i + 1], p);
    ReachableIsSafe(trace[i].log, "");
    ApplyPersists(trace[i].db, trace[i].work[p].op, trace[i].work[p].now);
  }

  /** And no step other than a commit changes an account at all. */
  lemma OnlyCommitsChangeAccounts(trace: seq<Sys>, i: nat)
    requires Execution(trace) && i + 1 < |trace| && trace[i + 1].db.accounts != trace[i].db.accounts
    ensures exists p :: Commits(trace[i], trace[i + 1], p) && DebitsAllowed(trace[i].db, trace[i + 1].db, trace[i].work[p].op)
  {
    InterleavingIsSerial(trace, i);
    assert Linked(trace, i);
    StepIsAtomic(trace[i], trace[i + 1]);
    var p :| Commits(trace[i], trace[i + 1], p);
    CommitDebits(trace, i, p);
  }
}
