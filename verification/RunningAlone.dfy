/** A transaction whose statements run with nobody else at work does what the atomic operation does, errors
    included. With serialisability this fixes the statements: they refuse nothing that the operation accepts. */
module RunningAlone {
  import opened Common
  import opened Tables
  import opened Operations
  import opened LedgerInvariant
  import opened LedgerRuns
  import opened Idempotency
  import opened Interleaving
  import opened Serializability
  import opened CommitOrder
  import opened LockOrder

  ghost predicate FreshIds(db: Db, op: Op) {
    && (NewTxnId(op).Some? ==> NewTxnId(op).value !in db.txns)
    && (NewAccountId(op).Some? ==> NewAccountId(op).value !in db.accounts)
  }

  /** What is known besides while the committed state does not change. */
  ghost predicate Undisturbed(db: Db, w: Work) {
    && Good(db, w) && FreshIds(db, w.op)
    && (w.op.KeyedTransfer? && (w.stage.KeyRead? || Replaying(w)) ==> KeyOf(w.op) in db.keys && !Expired(db.keys, KeyOf(w.op), w.now))
    && (w.op.KeyedTransfer? && w.stage.KeyInsert? && w.delta.dropped == {} ==> !Expired(db.keys, KeyOf(w.op), w.now))
    && ((w.stage.Lock? || w.stage.Decide?) && IsMoney(w.op) && !w.op.Reverse? ==> forall a | a in w.ids :: a in db.accounts)
  }

  ghost predicate Replaying(w: Work) { w.stage.Commit? && Replays(w) }

  lemma BeginUndisturbed(db: Db, op: Op, now: Time)
    requires Admissible(op) && FreshIds(db, op)
    ensures Undisturbed(db, Begin(op, now))
  {
    BeginGood(db, op, now);
  }

  lemma KeyStaysUndisturbed(db: Db, w: Work, w': Work)
    requires Undisturbed(db, w) && OnKey(w.stage) && Exec(db, w) == Next(w')
    ensures Undisturbed(db, w')
  {
    ExecKeepsGood(db, w, w');
  }

  lemma ResolveStaysUndisturbed(db: Db, w: Work, w': Work)
    requires Undisturbed(db, w) && w.stage.Resolve? && Exec(db, w) == Next(w')
    ensures Undisturbed(db, w')
  {
    ExecKeepsGood(db, w, w');
  }

  lemma LaterKeepsIds(db: Db, w: Work, w': Work)
    requires Shaped(w) && !OnKey(w.stage) && !w.stage.Resolve? && !w.stage.Commit? && Exec(db, w) == Next(w')
    ensures w'.op == w.op && w'.now == w.now && !OnKey(w'.stage) && (w.plan.Some? ==> w'.plan.Some?)
    ensures w'.stage.Lock? || w'.stage.Decide? ==> w.op.Reverse? || (w.stage.Lock? && w'.ids == w.ids)
    ensures w'.stage.Commit? && w.op.KeyedTransfer? ==> w'.plan.Some?
  {}

  lemma StaysUndisturbed(db: Db, w: Work, w': Work)
    requires Undisturbed(db, w) && !w.stage.Commit? && Exec(db, w) == Next(w')
    ensures Undisturbed(db, w')
  {
    if OnKey(w.stage) {
      KeyStaysUndisturbed(db, w, w');
    } else if w.stage.Resolve? {
      ResolveStaysUndisturbed(db, w, w');
    } else {
      ExecKeepsGood(db, w, w');
      LaterKeepsIds(db, w, w');
    }
  }

  /** The statements one after another, up to the commit or the first error. */
  ghost function Alone(db: Db, w: Work): (r: StepResult)
    requires Undisturbed(db, w)
    ensures r.Next? ==> Undisturbed(db, r.w) && r.w.stage.Commit? && r.w.op == w.op && r.w.now == w.now
    decreases Phase(w.stage), Left(w)
  {
    if w.stage.Commit? then Next(w)
    else
      match Exec(db, w)
      case Fail(e) => Fail(e)
      case Next(w') =>
        StaysUndisturbed(db, w, w');
        ExecHolds(db, w, w');
        StatementsRunOut(db, w, w');
        LeftIsPositive(w);
        Alone(db, w')
  }

  // ---- every error is the operation's own ----

  ghost predicate KeyIsFree(db: Db, op: Op, now: Time) {
    op.KeyedTransfer? ==> KeyOf(op) in db.keys ==> Expired(db.keys, KeyOf(op), now)
  }

  lemma MoneyRejected(db: Db, op: Op, now: Time, e: Error)
    requires IsMoney(op) && Admissible(op) && KeyIsFree(db, op, now) && PrepareAndSettle(db, op, now) == Err(e)
    ensures Apply(db, op, now) == Rejected(e)
  {}

  lemma KeyFails(db: Db, w: Work, e: Error)
    requires Undisturbed(db, w) && OnKey(w.stage) && Exec(db, w) == Fail(e)
    ensures Apply(db, w.op, w.now) == Rejected(e)
  {}

  lemma ReadFails(db: Db, w: Work, e: Error)
    requires Undisturbed(db, w) && Reading(w.stage) && IsMoney(w.op) && Exec(db, w) == Fail(e)
    ensures Prepare(db, w.op, w.now) == Err(e)
  {
    if w.stage.Lock? {
      assert w.ids[w.stage.i] in w.ids;
    }
  }

  lemma LockFails(db: Db, w: Work, e: Error)
    requires Undisturbed(db, w) && w.stage.Lock? && !IsMoney(w.op) && Exec(db, w) == Fail(e)
    ensures Apply(db, w.op, w.now) == Rejected(e)
  {
    assert w.ids[w.stage.i] in w.ids;
  }

  lemma DecideFails(db: Db, w: Work, e: Error)
    requires Undisturbed(db, w) && w.stage.Decide? && IsMoney(w.op) && Exec(db, w) == Fail(e)
    ensures Prepare(db, w.op, w.now) == Err(e)
  {
    if w.op.Reverse? {
      ReversalDecideFails(db, w, e);
    } else {
      PrepareOnRows(db, w);
    }
  }

  lemma PrepareOnRows(db: Db, w: Work)
    requires Good(db, w) && w.stage.Decide? && IsMoney(w.op) && !w.op.Reverse?
    ensures Prepare(Seen(db, w), w.op, w.now) == Prepare(db, w.op, w.now)
  {
    assert w.op.DepositTo? || w.op.WithdrawFrom? ==> w.op.account in w.ids;
  }

  lemma ReversalDecideFails(db: Db, w: Work, e: Error)
    requires Good(db, w) && w.stage.Decide? && w.op.Reverse? && Exec(db, w) == Fail(e)
    ensures Prepare(db, w.op, w.now) == Err(e)
  {
    assert forall a | a in CustomersOf(w.src) :: a in w.rows && a in db.accounts && db.accounts[a] == w.rows[a];
  }

  lemma AdminFails(db: Db, w: Work, e: Error)
    requires Undisturbed(db, w) && LedgersNamed(db) && (w.stage.Decide? || w.stage.UpdateAccount?) && !IsMoney(w.op) && Exec(db, w) == Fail(e)
    ensures Apply(db, w.op, w.now) == Rejected(e)
  {
    if w.stage.Decide? {
      assert w.op.account in w.ids;
    }
  }

  lemma {:induction false} LaterMovesFail(accounts: map<AccountId, Account>, moves: seq<Move>, shortfall: Error, i: nat, e: Error)
    requires i <= |moves| && ApplyMoves(accounts, moves[..i], shortfall) == Err(e)
    ensures ApplyMoves(accounts, moves, shortfall) == Err(e)
  {
    if i == |moves| {
      assert moves[..i] == moves;
    } else {
      assert moves[..|moves| - 1][..i] == moves[..i];
      LaterMovesFail(accounts, moves[..|moves| - 1], shortfall, i, e);
    }
  }

  lemma AdjustFails(db: Db, w: Work, e: Error)
    requires Good(db, w) && w.stage.Adjust? && PlanFacts(db, w) && ExecWrite(db, w) == Fail(e)
    ensures ApplyMoves(db.accounts, w.plan.value.moves, w.plan.value.shortfall) == Err(e)
  {
    var i, plan := w.stage.i, w.plan.value;
    var done := plan.moves[..i + 1];
    assert done[..i] == plan.moves[..i] && done[i] == plan.moves[i];
    assert forall m | m in plan.moves[..i] :: m in plan.moves;
    MovesOnRows(w.rows, db.accounts, plan.moves[..i], plan.shortfall);
    Absorbs(db.accounts, w.rows, w.delta.accounts);
    assert ApplyMoves(db.accounts, done, plan.shortfall) == Err(e);
    LaterMovesFail(db.accounts, plan.moves, plan.shortfall, i + 1, e);
  }

  lemma WriteFails(db: Db, w: Work, e: Error)
    requires Undisturbed(db, w) && Writing(w.stage) && Exec(db, w) == Fail(e)
    ensures PrepareAndSettle(db, w.op, w.now) == Err(e)
  {
    PlanTouches(Seen(db, w), w.op, w.plan.value, w.now);
    PlanOnRows(db, w);
    if w.stage.Adjust? {
      AdjustFails(db, w, e);
    }
  }

  lemma MoneyFails(db: Db, w: Work, e: Error)
    requires Undisturbed(db, w) && IsMoney(w.op) && !OnKey(w.stage) && !w.stage.Commit? && Exec(db, w) == Fail(e)
    ensures PrepareAndSettle(db, w.op, w.now) == Err(e)
  {
    if Reading(w.stage) {
      ReadFails(db, w, e);
    } else if w.stage.Decide? {
      DecideFails(db, w, e);
    } else {
      WriteFails(db, w, e);
    }
  }

  lemma FailIsRejected(db: Db, w: Work, e: Error)
    requires LedgersNamed(db) && Undisturbed(db, w) && !w.stage.Commit? && Exec(db, w) == Fail(e)
    ensures Apply(db, w.op, w.now) == Rejected(e)
  {
    if OnKey(w.stage) {
      KeyFails(db, w, e);
    } else if !IsMoney(w.op) {
      if w.stage.Lock? { LockFails(db, w, e); } else { AdminFails(db, w, e); }
    } else {
      MoneyFails(db, w, e);
      MoneyRejected(db, w.op, w.now, e);
    }
  }

  lemma {:induction false} AloneFails(db: Db, w: Work)
    requires LedgersNamed(db) && Undisturbed(db, w) && Alone(db, w).Fail?
    ensures Apply(db, w.op, w.now) == Rejected(Alone(db, w).error)
    decreases Phase(w.stage), Left(w)
  {
    match Exec(db, w)
    case Fail(e) => FailIsRejected(db, w, e);
    case Next(w') =>
      StaysUndisturbed(db, w, w');
      ExecHolds(db, w, w');
      StatementsRunOut(db, w, w');
      LeftIsPositive(w);
      AloneFails(db, w');
  }

  /** Statement by statement or at once: the same state, or the same error. */
  lemma AloneIsApply(db: Db, op: Op, now: Time)
    requires Inv(db) && Admissible(op) && FreshIds(db, op)
    ensures Undisturbed(db, Begin(op, now))
    ensures var r := Alone(db, Begin(op, now));
            if r.Fail? then Apply(db, op, now) == Rejected(r.error)
            else Apply(db, op, now).Committed? && Merge(db, r.w.delta) == After(db, op, now)
  {
    BeginUndisturbed(db, op, now);
    var r := Alone(db, Begin(op, now));
    if r.Fail? {
      AloneFails(db, Begin(op, now));
    } else {
      CommitIsApply(db, r.w);
      if Replays(r.w) {
        ReplayCommit(db, r.w);
      }
    }
  }
}
