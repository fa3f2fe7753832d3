/** When each money operation goes through, and what exactly it then changes. */
module Effects {
  import opened Common
  import opened Tables
  import opened Operations
  import opened LedgerInvariant
  import opened LedgerRuns
  import opened TransferLimits

  // ---- transfers ----

  /** The conditions of a transfer, stated without the order in which they are checked. */
  ghost predicate CanTransfer(db: Db, r: TransferRequest, now: Time) {
    && r.id !in db.txns && r.from in db.accounts && r.to in db.accounts && r.from != r.to
    && var from, to := db.accounts[r.from], db.accounts[r.to];
    && from.owner == r.username
    && from.currency == to.currency == r.currency && r.currency in {"USD", "EUR"}
    && from.status == Active && to.status != Closed
    && 0 < r.amount <= 1_000_000
    && SumMap(TransfersFrom(db, r.from, DayOf(now))) + r.amount <= 2_500_000
    && r.amount <= from.balance && to.balance + r.amount <= MAX_BIGINT
  }

  lemma TwoMovesApply(accounts: map<AccountId, Account>, m: Move, m': Move, e: Error)
    requires m.account in accounts && m'.account in accounts && m.account != m'.account
    requires forall a | a in accounts :: 0 <= accounts[a].balance <= MAX_BIGINT
    ensures var r := ApplyMoves(accounts, [m, m'], e);
            var b, b' := accounts[m.account].balance + m.delta, accounts[m'.account].balance + m'.delta;
            && (r.Ok? <==> 0 <= b <= MAX_BIGINT && 0 <= b' <= MAX_BIGINT)
            && (r.Ok? ==> r.value == accounts[m.account := accounts[m.account].(balance := b)]
                                             [m'.account := accounts[m'.account].(balance := b')])
  {
    assert [m, m'][..1] == [m] && [m][..0] == [];
    assert ApplyMoves(accounts, [], e) == Ok(accounts);
    assert ApplyMoves(accounts, [m], e) ==
      match AddBalance(accounts, m, e) { case Err(x) => Err(x) case Ok(row) => Ok(accounts[m.account := row]) };
  }

  lemma TransferIsPlanned(db: Db, r: TransferRequest, now: Time)
    requires Inv(db) && r.id !in db.txns
    requires r.from in db.accounts && r.to in db.accounts && r.from != r.to
    ensures var from, to, p := db.accounts[r.from], db.accounts[r.to], PrepareTransfer(db, r, now);
      p.Ok? <==>
        && from.owner == r.username
        && from.currency == to.currency == r.currency && r.currency in {"USD", "EUR"}
        && from.status == Active && to.status != Closed
        && 0 < r.amount <= 1_000_000
        && SumMap(TransfersFrom(db, r.from, DayOf(now))) + r.amount <= 2_500_000
  {
    assert AccountAgrees(db, r.from) && AccountAgrees(db, r.to);
    DailyTotalIs(db, r.from, now);
    assert db.accounts[r.from].status.Active? || db.accounts[r.from].status.Frozen? || db.accounts[r.from].status.Closed?;
    var lines := [Posting(r.id, CustomerLedger(r.from), -r.amount), Posting(r.id, CustomerLedger(r.to), r.amount)];
    assert lines[..1][..0] == [] && LineTotal(lines[..1]) == -r.amount;
  }

  /** A transfer commits exactly when its conditions hold, and then changes two balances, one
      transaction row and two postings, and nothing else. */
  lemma TransferCommitsExactly(db: Db, r: TransferRequest, now: Time)
    requires Inv(db)
    ensures Apply(db, Transfer(r), now).Committed? <==> CanTransfer(db, r, now)
    ensures CanTransfer(db, r, now) ==>
      var from, to := db.accounts[r.from], db.accounts[r.to];
      After(db, Transfer(r), now) == db.(
        accounts := db.accounts[r.from := from.(balance := from.balance - r.amount)]
                               [r.to := to.(balance := to.balance + r.amount)],
        txns := db.txns[r.id := Txn(InternalTransfer, Posted, r.currency, r.amount, r.username, None, now, Some(now))],
        postings := db.postings + [Posting(r.id, CustomerLedger(r.from), -r.amount), Posting(r.id, CustomerLedger(r.to), r.amount)])
  {
    TransferIsFinish(db, r, now);
    if r.id !in db.txns && r.from in db.accounts && r.to in db.accounts && r.from != r.to {
      TransferIsPlanned(db, r, now);
      if PrepareTransfer(db, r, now).Ok? {
        TransferSettles(db, r, now);
      }
    }
  }

  lemma TransferIsFinish(db: Db, r: TransferRequest, now: Time)
    ensures var f := Finish(db, PrepareTransfer(db, r, now), now);
      && (Apply(db, Transfer(r), now).Committed? <==> f.Ok?)
      && (f.Ok? ==> After(db, Transfer(r), now) == f.value)
  {}

  lemma TransferSettles(db: Db, r: TransferRequest, now: Time)
    requires Inv(db) && r.id !in db.txns && r.from in db.accounts && r.to in db.accounts && r.from != r.to
    ensures var from, to, s := db.accounts[r.from], db.accounts[r.to], Settle(db, TransferPlan(r, now), now);
      && (s.Ok? <==> 0 <= from.balance - r.amount <= MAX_BIGINT && 0 <= to.balance + r.amount <= MAX_BIGINT)
      && (s.Ok? ==> s.value == db.(
            accounts := db.accounts[r.from := from.(balance := from.balance - r.amount)]
                                   [r.to := to.(balance := to.balance + r.amount)],
            txns := db.txns[r.id := PostedRow(TransferPlan(r, now), now)],
            postings := db.postings + TransferPlan(r, now).lines))
  {
    forall a | a in db.accounts
      ensures 0 <= db.accounts[a].balance <= MAX_BIGINT
    {
      assert AccountAgrees(db, a);
    }
    TwoMovesApply(db.accounts, Move(r.from, -r.amount), Move(r.to, r.amount), InsufficientBalance);
  }

  // ---- deposits and withdrawals ----

  function Signed(op: Op): int
    requires op.DepositTo? || op.WithdrawFrom?
  {
    if op.DepositTo? then op.amount else -op.amount
  }

  ghost predicate CanSettle(db: Db, op: Op)
    requires op.DepositTo? || op.WithdrawFrom?
  {
    && op.id !in db.txns && op.amount > 0 && op.account in db.accounts
    && var row := db.accounts[op.account];
    && row.status != Closed && (op.WithdrawFrom? ==> row.status == Active) && SettlementLedger(row.currency) in db.ledgers
    && 0 <= row.balance + Signed(op) <= MAX_BIGINT
  }

  function SettlementOf(db: Db, op: Op, now: Time): Plan
    requires (op.DepositTo? || op.WithdrawFrom?) && op.account in db.accounts
  {
    SettlementPlan(op.id, op.account, db.accounts[op.account].currency, op.amount, if op.DepositTo? then Deposit else Withdrawal, op.actor, now)
  }

  lemma SettlementIsPlanned(db: Db, op: Op, now: Time)
    requires Inv(db) && (op.DepositTo? || op.WithdrawFrom?) && op.account in db.accounts
    ensures var row := db.accounts[op.account];
            Prepare(db, op, now).Ok? <==>
              op.amount > 0 && row.status != Closed && (op.WithdrawFrom? ==> row.status == Active) && SettlementLedger(row.currency) in db.ledgers
    ensures Prepare(db, op, now).Ok? ==> Prepare(db, op, now).value == SettlementOf(db, op, now)
  {
    assert AccountAgrees(db, op.account);
    if op.amount > 0 { SettlementIsBalanced(db, op, now); }
  }

  lemma SettlementIsBalanced(db: Db, op: Op, now: Time)
    requires (op.DepositTo? || op.WithdrawFrom?) && op.account in db.accounts && op.amount > 0
    ensures CheckBalanced(SettlementOf(db, op, now)) == Ok(SettlementOf(db, op, now))
  {
    var lines := SettlementOf(db, op, now).lines;
    assert lines[..1][..0] == [] && LineTotal(lines[..1]) == lines[0].amount;
  }

  lemma SettlementSettles(db: Db, op: Op, now: Time)
    requires Inv(db) && (op.DepositTo? || op.WithdrawFrom?) && op.account in db.accounts && op.id !in db.txns
    ensures var row, s, plan := db.accounts[op.account], Settle(db, SettlementOf(db, op, now), now), SettlementOf(db, op, now);
      && (s.Ok? <==> 0 <= row.balance + Signed(op) <= MAX_BIGINT)
      && (s.Ok? ==> s.value == db.(
            accounts := db.accounts[op.account := row.(balance := row.balance + Signed(op))],
            txns := db.txns[op.id := PostedRow(plan, now)], postings := db.postings + plan.lines))
  {
    OneMoveInTurn(db.accounts, Move(op.account, Signed(op)), InsufficientBalance);
  }

  lemma SettlementIsFinish(db: Db, op: Op, now: Time)
    requires op.DepositTo? || op.WithdrawFrom?
    ensures var f := Finish(db, Prepare(db, op, now), now);
      && (Apply(db, op, now).Committed? <==> f.Ok?)
      && (f.Ok? ==> After(db, op, now) == f.value)
      && (op.account !in db.accounts ==> f.Err?)
  {}

  /** The state after a deposit or withdrawal that commits. */
  function Settled(db: Db, op: Op, now: Time): Db
    requires (op.DepositTo? || op.WithdrawFrom?) && op.account in db.accounts
  {
    var row := db.accounts[op.account];
    db.(accounts := db.accounts[op.account := row.(balance := row.balance + Signed(op))],
        txns := db.txns[op.id := Txn(if op.DepositTo? then Deposit else Withdrawal, Posted, row.currency, op.amount,
                                     if op.actor == "" then "operator_cli" else op.actor, None, now, Some(now))],
        postings := db.postings + [Posting(op.id, SettlementLedger(row.currency), -Signed(op)), Posting(op.id, CustomerLedger(op.account), Signed(op))])
  }

  lemma PlannedSettlementSettles(db: Db, op: Op, now: Time)
    requires Inv(db) && (op.DepositTo? || op.WithdrawFrom?) && op.account in db.accounts
    ensures var row, s := db.accounts[op.account], Settle(db, SettlementOf(db, op, now), now);
            && (s.Ok? <==> op.id !in db.txns && 0 <= row.balance + Signed(op) <= MAX_BIGINT)
            && (s.Ok? ==> s.value == Settled(db, op, now))
  {
    if op.id !in db.txns {
      SettlementSettles(db, op, now);
      SettlementRows(db, op, now);
    }
  }

  lemma SettlementRows(db: Db, op: Op, now: Time)
    requires (op.DepositTo? || op.WithdrawFrom?) && op.account in db.accounts
    ensures var row, plan := db.accounts[op.account], SettlementOf(db, op, now);
      && PostedRow(plan, now) == Txn(if op.DepositTo? then Deposit else Withdrawal, Posted, row.currency, op.amount,
                                     if op.actor == "" then "operator_cli" else op.actor, None, now, Some(now))
      && plan.lines == [Posting(op.id, SettlementLedger(row.currency), -Signed(op)), Posting(op.id, CustomerLedger(op.account), Signed(op))]
  {}

  /** A deposit or withdrawal commits exactly when its conditions hold, and then changes one balance, one
      transaction row and the two postings that cancel each other, and nothing else. */
  lemma SettlementCommitsExactly(db: Db, op: Op, now: Time)
    requires Inv(db) && (op.DepositTo? || op.WithdrawFrom?)
    ensures Apply(db, op, now).Committed? <==> CanSettle(db, op)
    ensures CanSettle(db, op) ==> After(db, op, now) == Settled(db, op, now)
  {
    SettlementIsFinish(db, op, now);
    if op.account in db.accounts {
      SettlementIsPlanned(db, op, now);
      PlannedSettlementSettles(db, op, now);
    }
  }

  // ---- reversals ----

  ghost predicate AtMostOnce(moves: seq<Move>) {
    forall i, j | 0 <= i < j < |moves| :: moves[i].account != moves[j].account
  }

  lemma {:induction false} MovesSucceed(accounts: map<AccountId, Account>, moves: seq<Move>, e: Error)
    requires AtMostOnce(moves)
    requires forall m | m in moves :: m.account in accounts
    requires forall a | a in accounts :: 0 <= accounts[a].balance <= MAX_BIGINT
    ensures ApplyMoves(accounts, moves, e).Ok? <==>
            forall a | a in accounts :: 0 <= accounts[a].balance + MoveTotal(moves, a) <= MAX_BIGINT
  {
    if moves != [] {
      var last, before := moves[|moves| - 1], moves[..|moves| - 1];
      forall m | m in before
        ensures m.account != last.account && m in moves
      {}
      MovesSucceed(accounts, before, e);
      MovesEffect(accounts, before, e);
      NotMoved(before, last.account);
      LastMove(accounts, moves, e);
    }
  }

  lemma LastMove(accounts: map<AccountId, Account>, moves: seq<Move>, e: Error)
    requires moves != [] && moves[|moves| - 1].account in accounts
    requires var before := moves[..|moves| - 1];
      && MoveTotal(before, moves[|moves| - 1].account) == 0
      && (forall a | a in accounts :: 0 <= accounts[a].balance <= MAX_BIGINT)
      && (ApplyMoves(accounts, before, e).Ok? <==>
          forall a | a in accounts :: 0 <= accounts[a].balance + MoveTotal(before, a) <= MAX_BIGINT)
      && (ApplyMoves(accounts, before, e).Ok? ==>
            && moves[|moves| - 1].account in ApplyMoves(accounts, before, e).value
            && ApplyMoves(accounts, before, e).value[moves[|moves| - 1].account] == accounts[moves[|moves| - 1].account])
    ensures ApplyMoves(accounts, moves, e).Ok? <==>
            forall a | a in accounts :: 0 <= accounts[a].balance + MoveTotal(moves, a) <= MAX_BIGINT
  {
    var last, before := moves[|moves| - 1], moves[..|moves| - 1];
    forall a | a in accounts
      ensures MoveTotal(moves, a) == if a == last.account then last.delta else MoveTotal(before, a)
    {}
  }

  lemma {:induction false} ReversalTouchesOnce(src: seq<Posting>, t: TxnId)
    requires forall p | p in src :: p.txn == t
    requires forall l :: Total(src, Cell(t, l), One) <= 1
    ensures AtMostOnce(OppositeMoves(src))
  {
    if src != [] {
      var last, before := src[|src| - 1], src[..|src| - 1];
      forall l
        ensures Total(before, Cell(t, l), One) <= 1
      {
        assert Total(src, Cell(t, l), One) <= 1;
      }
      ReversalTouchesOnce(before, t);
      if last.ledger.CustomerLedger? {
        assert Total(src, Cell(t, last.ledger), One) <= 1;
        forall i | 0 <= i < |OppositeMoves(before)|
          ensures OppositeMoves(before)[i].account != last.ledger.account
        {
          MovesCounted(before, t, OppositeMoves(before)[i].account);
          assert OppositeMoves(before)[i] in OppositeMoves(before);
        }
      }
    }
  }

  lemma {:induction false} MovesCounted(src: seq<Posting>, t: TxnId, a: AccountId)
    requires forall p | p in src :: p.txn == t
    ensures Total(src, Cell(t, CustomerLedger(a)), One) >= 0
    ensures (exists m :: m in OppositeMoves(src) && m.account == a) ==> Total(src, Cell(t, CustomerLedger(a)), One) >= 1
  {
    if src != [] {
      MovesCounted(src[..|src| - 1], t, a);
    }
  }

  ghost predicate TouchesClosed(db: Db, t: TxnId) {
    exists p | p in db.postings && p.txn == t && p.ledger.CustomerLedger? ::
      p.ledger.account in db.accounts && db.accounts[p.ledger.account].status == Closed
  }

  ghost predicate CanReverse(db: Db, op: Op)
    requires op.Reverse?
  {
    && op.valid && op.id !in db.txns && op.target in db.txns
    && db.txns[op.target].status == Posted && db.txns[op.target].kind != Reversal
    && !TouchesClosed(db, op.target)
    && Affordable(db, op.target)
  }

  lemma {:induction false} PostingsOfMembers(ps: seq<Posting>, t: TxnId)
    ensures forall p :: p in PostingsOf(ps, t) <==> p in ps && p.txn == t
  {
    if ps != [] {
      PostingsOfMembers(ps[..|ps| - 1], t);
      assert forall p :: p in ps <==> p in ps[..|ps| - 1] || p == ps[|ps| - 1];
    }
  }

  lemma {:induction false} TotalIsLineTotal(lines: seq<Posting>, t: TxnId)
    requires forall p | p in lines :: p.txn == t
    ensures LineTotal(lines) == Total(lines, OfTxn(t), Amount)
  {
    if lines != [] {
      TotalIsLineTotal(lines[..|lines| - 1], t);
    }
  }

  lemma OppositeIsBalanced(db: Db, t: TxnId, id: TxnId)
    requires Inv(db) && t in db.txns
    ensures var src := PostingsOf(db.postings, t);
            |src| >= 2 && LineTotal(OppositeLines(src, id)) == 0
  {
    var src := PostingsOf(db.postings, t);
    assert TxnBalanced(db, t);
    PostingsOfTotals(db.postings, t, OfTxn(t), Amount);
    PostingsOfTotals(db.postings, t, OfTxn(t), One);
    CountOfTxnIsLength(src, t);
    OppositeTotals(src, id, t, SettlementLedger(""));
    TotalIsLineTotal(OppositeLines(src, id), id);
  }

  lemma OppositeIsNotZero(db: Db, t: TxnId, id: TxnId)
    requires PostingsRefer(db)
    ensures forall p | p in OppositeLines(PostingsOf(db.postings, t), id) :: p.amount != 0
  {
    var src := PostingsOf(db.postings, t);
    PostingsOfMembers(db.postings, t);
    forall p | p in OppositeLines(src, id)
      ensures p.amount != 0
    {
      var i :| 0 <= i < |src| && p == OppositeLines(src, id)[i];
      assert src[i] in src;
    }
  }

  lemma ClosedAmongCustomers(db: Db, t: TxnId)
    requires PostingsRefer(db) && LedgersNamed(db)
    ensures var customers := CustomersOf(PostingsOf(db.postings, t));
            (forall a | a in customers :: a in db.accounts) && (TouchesClosed(db, t) <==> exists a | a in customers :: db.accounts[a].status == Closed)
  {
    PostingsOfMembers(db.postings, t);
    forall p | p in PostingsOf(db.postings, t) && p.ledger.CustomerLedger?
      ensures p.ledger.account in db.accounts && p.ledger.account in CustomersOf(PostingsOf(db.postings, t))
    {}
  }

  /** Planning a reversal fails only on the original's state or a closed account, never on its postings. */
  lemma ReversalPlanExists(db: Db, op: Op, now: Time)
    requires Inv(db) && op.Reverse? && op.valid && op.target in db.txns
    requires db.txns[op.target].status == Posted && db.txns[op.target].kind != Reversal
    ensures PrepareReversal(db, op, now).Ok? <==> !TouchesClosed(db, op.target)
  {
    assert TxnBalanced(db, op.target);
    OppositeIsBalanced(db, op.target, op.id);
    OppositeIsNotZero(db, op.target, op.id);
    ClosedAmongCustomers(db, op.target);
  }

  /** A reversal commits exactly when the original is posted, is not itself a reversal, touches no closed
      account, and every customer can afford it; each balance then loses what the original had posted to it. */
  lemma ReversalCommitsExactly(db: Db, op: Op, now: Time)
    requires Inv(db) && op.Reverse?
    ensures Apply(db, op, now).Committed? <==> CanReverse(db, op)
    ensures CanReverse(db, op) ==> GivenBack(db, op.target, After(db, op, now).accounts)
  {
    ReverseIsFinish(db, op, now);
    ReversalIsPlanned(db, op, now);
    if PrepareReversal(db, op, now).Ok? {
      var plan := PrepareReversal(db, op, now).value;
      ReversalSettles(db, op, plan, now);
    }
  }

  lemma ReverseIsFinish(db: Db, op: Op, now: Time)
    requires op.Reverse?
    ensures var f := Finish(db, PrepareReversal(db, op, now), now);
      && (Apply(db, op, now).Committed? <==> f.Ok?)
      && (f.Ok? ==> After(db, op, now) == f.value)
  {}

  lemma ReversalIsPlanned(db: Db, op: Op, now: Time)
    requires Inv(db) && op.Reverse?
    ensures PrepareReversal(db, op, now).Ok? <==>
            && op.valid && op.target in db.txns && db.txns[op.target].status == Posted
            && db.txns[op.target].kind != Reversal && !TouchesClosed(db, op.target)
  {
    if op.valid && op.target in db.txns && db.txns[op.target].status == Posted && db.txns[op.target].kind != Reversal {
      ReversalPlanExists(db, op, now);
    }
  }

  ghost predicate Affordable(db: Db, t: TxnId) {
    forall a | a in db.accounts :: 0 <= db.accounts[a].balance - Total(db.postings, Cell(t, CustomerLedger(a)), Amount) <= MAX_BIGINT
  }

  ghost predicate GivenBack(db: Db, t: TxnId, accounts: map<AccountId, Account>) {
    accounts == map a | a in db.accounts :: db.accounts[a].(
      balance := db.accounts[a].balance - Total(db.postings, Cell(t, CustomerLedger(a)), Amount))
  }

  lemma ReversalSettles(db: Db, op: Op, plan: Plan, now: Time)
    requires Inv(db) && op.Reverse? && PrepareReversal(db, op, now) == Ok(plan)
    ensures Settle(db, plan, now).Ok? <==> op.id !in db.txns && Affordable(db, op.target)
    ensures Settle(db, plan, now).Ok? ==> GivenBack(db, op.target, Settle(db, plan, now).value.accounts)
  {
    var src := PostingsOf(db.postings, op.target);
    ReversalIsChecked(db, op, plan, now);
    PreparedReversalOk(db, op, src, plan, now);
    SourceLines(db, op.target);
    ReversalMoves(db, op.target, src);
  }

  lemma ReversalMoves(db: Db, t: TxnId, src: seq<Posting>)
    requires AccountsAgree(db) && (forall p | p in src :: p.txn == t)
    requires forall l :: Total(src, Cell(t, l), One) <= 1
    requires forall l :: Total(src, Cell(t, l), Amount) == Total(db.postings, Cell(t, l), Amount)
    requires forall m | m in OppositeMoves(src) :: m.account in db.accounts
    ensures var r := ApplyMoves(db.accounts, OppositeMoves(src), ReversalInsufficientFunds);
      (r.Ok? <==> Affordable(db, t)) && (r.Ok? ==> GivenBack(db, t, r.value))
  {
    forall a
      ensures MoveTotal(OppositeMoves(src), a) == -Total(db.postings, Cell(t, CustomerLedger(a)), Amount)
    {
      OppositeMovesMatch(src, t, a);
    }
    ReversalTouchesOnce(src, t);
    forall a | a in db.accounts
      ensures 0 <= db.accounts[a].balance <= MAX_BIGINT
    {
      assert AccountAgrees(db, a);
    }
    MovesGiveBack(db, t, OppositeMoves(src));
  }

  lemma MovesGiveBack(db: Db, t: TxnId, moves: seq<Move>)
    requires forall a | a in db.accounts :: 0 <= db.accounts[a].balance <= MAX_BIGINT
    requires AtMostOnce(moves) && (forall m | m in moves :: m.account in db.accounts)
    requires forall a :: MoveTotal(moves, a) == -Total(db.postings, Cell(t, CustomerLedger(a)), Amount)
    ensures var r := ApplyMoves(db.accounts, moves, ReversalInsufficientFunds);
      (r.Ok? <==> Affordable(db, t)) && (r.Ok? ==> GivenBack(db, t, r.value))
  {
    MovesSucceed(db.accounts, moves, ReversalInsufficientFunds);
    MovesEffect(db.accounts, moves, ReversalInsufficientFunds);
    AffordableByMoves(db, t, moves);
    var r := ApplyMoves(db.accounts, moves, ReversalInsufficientFunds);
    if r.Ok? {
      GivenBackByMoves(db, t, moves, r.value);
    }
  }

  lemma AffordableByMoves(db: Db, t: TxnId, moves: seq<Move>)
    requires forall a :: MoveTotal(moves, a) == -Total(db.postings, Cell(t, CustomerLedger(a)), Amount)
    ensures Affordable(db, t) <==> forall a | a in db.accounts :: 0 <= db.accounts[a].balance + MoveTotal(moves, a) <= MAX_BIGINT
  {}

  lemma GivenBackByMoves(db: Db, t: TxnId, moves: seq<Move>, accounts: map<AccountId, Account>)
    requires forall a :: MoveTotal(moves, a) == -Total(db.postings, Cell(t, CustomerLedger(a)), Amount)
    requires accounts.Keys == db.accounts.Keys
    requires forall a | a in db.accounts :: accounts[a] == db.accounts[a].(balance := db.accounts[a].balance + MoveTotal(moves, a))
    ensures GivenBack(db, t, accounts)
  {}

  /** Reversing what was just posted puts every cached balance back. */
  lemma ReversalUndoes(db: Db, op: Op, now: Time, plan: Plan, db1: Db, r: Op, later: Time)
    requires Inv(db) && IsMoney(op) && Prepare(db, op, now) == Ok(plan) && Settle(db, plan, now) == Ok(db1)
    requires r.Reverse? && r.target == plan.id && Apply(db1, r, later).Committed?
    ensures After(db1, r, later).accounts == db.accounts
  {
    PreparedOk(db, op, now);
    SettleKeepsInv(db, plan, now);
    ReversalCommitsExactly(db1, r, later);
    SettledBalances(db, plan, now);
    forall a
      ensures Total(db1.postings, Cell(plan.id, CustomerLedger(a)), Amount) == MoveTotal(plan.moves, a)
    {
      PostedCell(db, plan, now, db1, a);
    }
    AddThenSubtract(db.accounts, db1, After(db1, r, later).accounts, plan);
  }

  lemma AddThenSubtract(accounts: map<AccountId, Account>, db1: Db, accounts2: map<AccountId, Account>, plan: Plan)
    requires db1.accounts == map a | a in accounts :: accounts[a].(balance := accounts[a].balance + MoveTotal(plan.moves, a))
    requires GivenBack(db1, plan.id, accounts2)
    requires forall a :: Total(db1.postings, Cell(plan.id, CustomerLedger(a)), Amount) == MoveTotal(plan.moves, a)
    ensures accounts2 == accounts
  {}

  lemma PostedCell(db: Db, plan: Plan, now: Time, db1: Db, a: AccountId)
    requires Inv(db) && PlanOk(db, plan, now) && Settle(db, plan, now) == Ok(db1)
    ensures Total(db1.postings, Cell(plan.id, CustomerLedger(a)), Amount) == MoveTotal(plan.moves, a)
  {
    SettledTotals(db, plan, now, Cell(plan.id, CustomerLedger(a)), Amount);
    OneTxnCells(plan.lines, plan.id, CustomerLedger(a));
  }

  lemma {:induction false} OneTxnCells(lines: seq<Posting>, t: TxnId, l: LedgerId)
    requires forall p | p in lines :: p.txn == t
    ensures Total(lines, Cell(t, l), Amount) == Total(lines, OnLedger(l), Amount)
  {
    if lines != [] {
      OneTxnCells(lines[..|lines| - 1], t, l);
    }
  }

  // ---- a frozen account can still be debited ----

  lemma RunStep(steps: seq<Step>, step: Step)
    ensures Run(INITIAL, steps + [step]) == After(Run(INITIAL, steps), step.op, step.now)
  {
    assert (steps + [step])[..|steps|] == steps;
  }

  lemma OpenCommits(db: Db, a: AccountId, owner: string, currency: string, now: Time)
    requires a !in db.accounts && CustomerLedger(a) !in db.ledgers
    ensures After(db, OpenAccount(a, owner, currency), now) ==
            db.(accounts := db.accounts[a := Account(owner, 0, currency, Active)], ledgers := db.ledgers[CustomerLedger(a) := currency])
  {}

  lemma OpenedFirst() returns (steps: seq<Step>)
    ensures Run(INITIAL, steps) ==
            INITIAL.(accounts := INITIAL.accounts[0 := Account("", 0, "USD", Active)], ledgers := INITIAL.ledgers[CustomerLedger(0) := "USD"])
  {
    var open := Step(OpenAccount(0, "", "USD"), 0);
    OpenCommits(INITIAL, 0, "", "USD", 0);
    RunStep([], open);
    steps := [] + [open];
  }

  lemma FirstDeposit(db: Db, amount: int) returns (deposit: Op)
    requires Inv(db) && db.accounts == map[0 := Account("", 0, "USD", Active)] && db.txns == map[] && db.postings == []
    requires SettlementLedger("USD") in db.ledgers && 0 < amount <= MAX_BIGINT
    ensures var db' := After(db, deposit, 0);
            && db'.accounts == map[0 := Account("", amount, "USD", Active)]
            && db'.txns.Keys == {1} && db'.txns[1].status == Posted && db'.txns[1].kind == Deposit
            && db'.postings == [Posting(1, SettlementLedger("USD"), -amount), Posting(1, CustomerLedger(0), amount)]
  {
    deposit := DepositTo(1, 0, amount, "");
    var row := db.accounts[0];
    assert row == Account("", 0, "USD", Active) && Signed(deposit) == amount && CanSettle(db, deposit);
    SettlementCommitsExactly(db, deposit, 0);
    var db' := After(db, deposit, 0);
    assert db'.accounts == db.accounts[0 := row.(balance := amount)];
    assert db'.postings == [] + [Posting(1, SettlementLedger("USD"), -amount), Posting(1, CustomerLedger(0), amount)];
  }

  lemma OpenAndDeposit(amount: int) returns (steps: seq<Step>)
    requires 0 < amount <= MAX_BIGINT
    ensures var db := Run(INITIAL, steps);
            && db.accounts == map[0 := Account("", amount, "USD", Active)]
            && db.txns.Keys == {1} && db.txns[1].status == Posted && db.txns[1].kind == Deposit
            && db.postings == [Posting(1, SettlementLedger("USD"), -amount), Posting(1, CustomerLedger(0), amount)]
  {
    var before := OpenedFirst();
    ReachableIsSafe(before, "");
    var deposit := FirstDeposit(Run(INITIAL, before), amount);
    RunStep(before, Step(deposit, 0));
    steps := before + [Step(deposit, 0)];
  }

  /** Opening an account, depositing any amount the column can hold, and freezing the account reaches a state
      in which reversing the deposit takes the money back from the frozen account. */
  lemma FrozenAccountIsDebited(amount: int) returns (steps: seq<Step>, reversal: Op)
    requires 0 < amount <= MAX_BIGINT
    ensures var db := Run(INITIAL, steps);
            && reversal.Reverse? && 0 in db.accounts && db.accounts[0].status == Frozen && db.accounts[0].balance == amount
            && Apply(db, reversal, 0).Committed?
            && 0 in After(db, reversal, 0).accounts && After(db, reversal, 0).accounts[0] == db.accounts[0].(balance := 0)
  {
    var before := OpenAndDeposit(amount);
    var db, freeze := Run(INITIAL, before), SetStatus(0, Frozen, true);
    steps := before + [Step(freeze, 0)];
    RunStep(before, Step(freeze, 0));
    assert Run(INITIAL, steps) == db.(accounts := map[0 := Account("", amount, "USD", Frozen)]);
    ReachableIsSafe(steps, "");
    reversal := Reverse(2, 1, "", true);
    TwoLinesCell(db.postings, db.postings[0], db.postings[1]);
    ReversalCommitsExactly(Run(INITIAL, steps), reversal, 0);
  }

  lemma TwoLinesCell(ps: seq<Posting>, p: Posting, q: Posting)
    requires ps == [p, q] && p.ledger != q.ledger
    ensures Total(ps, Cell(q.txn, q.ledger), Amount) == q.amount
  {
    assert ps[..1] == [p] && [p][..0] == [];
    assert Total([p], Cell(q.txn, q.ledger), Amount) == 0;
  }
}
