/** What every call answers: for each error, exactly when it is returned, and what a success returns. */
module Answers {
  import opened Common
  import opened Tables
  import opened Operations
  import opened LedgerInvariant
  import opened LedgerRuns
  import opened TransferLimits
  import opened Effects

  // ---- transfers ----

  ghost predicate Found(db: Db, r: TransferRequest) { r.from in db.accounts && r.to in db.accounts && r.from != r.to }

  ghost predicate Owned(db: Db, r: TransferRequest) { Found(db, r) && db.accounts[r.from].owner == r.username }

  ghost predicate OneCurrency(db: Db, r: TransferRequest) {
    Owned(db, r) && db.accounts[r.from].currency == r.currency && db.accounts[r.to].currency == r.currency
  }

  ghost predicate Usable(db: Db, r: TransferRequest) {
    OneCurrency(db, r) && db.accounts[r.from].status == Active && db.accounts[r.to].status != Closed
  }

  ghost predicate WithinOne(db: Db, r: TransferRequest) { Usable(db, r) && r.currency in {"USD", "EUR"} && r.amount <= 1_000_000 }

  ghost predicate WithinDay(db: Db, r: TransferRequest, now: Time) {
    WithinOne(db, r) && SumMap(TransfersFrom(db, r.from, DayOf(now))) + r.amount <= 2_500_000
  }

  ghost predicate Writable(db: Db, r: TransferRequest, now: Time) { WithinDay(db, r, now) && r.amount > 0 && r.id !in db.txns }

  /** Refused on the two accounts as they are. */
  ghost predicate AccountsRefuse(db: Db, r: TransferRequest, e: Error) {
    match e
    case AccountNotFound => r.from !in db.accounts
    case RecipientNotFound => r.from in db.accounts && r.to !in db.accounts
    case SameAccount => r.from in db.accounts && r.to == r.from
    case AccountNotOwned => Found(db, r) && !Owned(db, r)
    case CurrencyMismatch => Owned(db, r) && !OneCurrency(db, r)
    case AccountFrozen => OneCurrency(db, r) && db.accounts[r.from].status == Frozen
    case AccountClosed =>
      OneCurrency(db, r) && db.accounts[r.from].status != Frozen && (db.accounts[r.from].status == Closed || db.accounts[r.to].status == Closed)
    case _ => false
  }

  /** Refused on the amount. */
  ghost predicate LimitsRefuse(db: Db, r: TransferRequest, now: Time, e: Error) {
    match e
    case CurrencyMismatch => Usable(db, r) && r.currency !in {"USD", "EUR"}
    case PerTransferLimitExceeded => Usable(db, r) && r.currency in {"USD", "EUR"} && r.amount > 1_000_000
    case DailyTransferLimitExceeded => WithinOne(db, r) && !WithinDay(db, r, now)
    case AmountNotPositive => WithinDay(db, r, now) && r.amount <= 0
    case _ => false
  }

  /** Refused by a write. */
  ghost predicate WritesRefuse(db: Db, r: TransferRequest, now: Time, e: Error) {
    match e
    case DuplicateKey => WithinDay(db, r, now) && r.amount > 0 && r.id in db.txns
    case InsufficientBalance => Writable(db, r, now) && db.accounts[r.from].balance < r.amount
    case OutOfRange => Writable(db, r, now) && r.amount <= db.accounts[r.from].balance && db.accounts[r.to].balance + r.amount > MAX_BIGINT
    case _ => false
  }

  lemma AccountsAnswer(db: Db, r: TransferRequest, now: Time, e: Error)
    requires !Usable(db, r)
    ensures PrepareTransfer(db, r, now) == Err(e) <==> AccountsRefuse(db, r, e)
    ensures PrepareTransfer(db, r, now).Err?
  {
    if OneCurrency(db, r) {
      var status := db.accounts[r.from].status;
      assert status == Active || status == Frozen || status == Closed;
    }
  }

  lemma LimitsAnswer(db: Db, r: TransferRequest, now: Time, e: Error)
    requires Inv(db) && Usable(db, r)
    ensures PrepareTransfer(db, r, now) == Err(e) <==> LimitsRefuse(db, r, now, e)
    ensures if WithinDay(db, r, now) && r.amount > 0 then PrepareTransfer(db, r, now) == Ok(TransferPlan(r, now)) else PrepareTransfer(db, r, now).Err?
  {
    assert AccountAgrees(db, r.from) && AccountAgrees(db, r.to);
    DailyTotalIs(db, r.from, now);
    BalancedLines(r, now);
    LimitsTable(db, r, now, e);
  }

  lemma LimitsTable(db: Db, r: TransferRequest, now: Time, e: Error)
    requires Usable(db, r) && CustomerLedger(r.from) in db.ledgers && CustomerLedger(r.to) in db.ledgers
    requires OutgoingSince(db.postings, db.txns, CustomerLedger(r.from), DayStart(now)) == SumMap(TransfersFrom(db, r.from, DayOf(now)))
    requires CheckBalanced(TransferPlan(r, now)) == if r.amount <= 0 then Err(AmountNotPositive) else Ok(TransferPlan(r, now))
    ensures PrepareTransfer(db, r, now) == Err(e) <==> LimitsRefuse(db, r, now, e)
    ensures if WithinDay(db, r, now) && r.amount > 0 then PrepareTransfer(db, r, now) == Ok(TransferPlan(r, now)) else PrepareTransfer(db, r, now).Err?
  {}

  lemma WritesAnswer(db: Db, r: TransferRequest, now: Time, e: Error)
    requires WithinDay(db, r, now) && r.amount > 0
    requires forall a | a in db.accounts :: 0 <= db.accounts[a].balance <= MAX_BIGINT
    ensures Settle(db, TransferPlan(r, now), now) == Err(e) <==> WritesRefuse(db, r, now, e)
  {
    WritesTable(db, r, now, e);
  }

  lemma WritesTable(db: Db, r: TransferRequest, now: Time, e: Error)
    requires r.from in db.accounts && r.to in db.accounts && r.from != r.to && r.amount > 0
    requires forall a | a in db.accounts :: 0 <= db.accounts[a].balance <= MAX_BIGINT
    ensures Settle(db, TransferPlan(r, now), now) == Err(e) <==>
            || (e == DuplicateKey && r.id in db.txns)
            || (e == InsufficientBalance && r.id !in db.txns && db.accounts[r.from].balance < r.amount)
            || (e == OutOfRange && r.id !in db.txns && r.amount <= db.accounts[r.from].balance && db.accounts[r.to].balance + r.amount > MAX_BIGINT)
  {
    TransferMoveAnswers(db.accounts, r, e);
    SettleRefused(db, TransferPlan(r, now), now, e);
  }

  /** A plan that is no reversal fails on a used ID, or else as its moves do. */
  lemma SettleRefused(db: Db, plan: Plan, now: Time, e: Error)
    requires plan.txn.reversalOf == None
    ensures Settle(db, plan, now) == Err(e) <==>
            || (plan.id in db.txns && e == DuplicateKey)
            || (plan.id !in db.txns && ApplyMoves(db.accounts, plan.moves, plan.shortfall) == Err(e))
  {}

  lemma BalancedLines(r: TransferRequest, now: Time)
    ensures CheckBalanced(TransferPlan(r, now)) == if r.amount <= 0 then Err(AmountNotPositive) else Ok(TransferPlan(r, now))
  {
    var lines := TransferPlan(r, now).lines;
    assert lines[..1][..0] == [] && LineTotal(lines[..1]) == -r.amount;
  }

  lemma TransferMoveAnswers(accounts: map<AccountId, Account>, r: TransferRequest, e: Error)
    requires r.from in accounts && r.to in accounts && r.from != r.to && r.amount > 0
    requires forall a | a in accounts :: 0 <= accounts[a].balance <= MAX_BIGINT
    ensures ApplyMoves(accounts, [Move(r.from, -r.amount), Move(r.to, r.amount)], InsufficientBalance) == Err(e) <==>
            || (e == InsufficientBalance && accounts[r.from].balance < r.amount)
            || (e == OutOfRange && r.amount <= accounts[r.from].balance && accounts[r.to].balance + r.amount > MAX_BIGINT)
  {
    var m, m' := Move(r.from, -r.amount), Move(r.to, r.amount);
    assert [m, m'][..1] == [m];
    OneMoveInTurn(accounts, m, InsufficientBalance);
  }

  lemma TransferIsRefused(db: Db, r: TransferRequest, now: Time, e: Error)
    ensures Apply(db, Transfer(r), now) == Rejected(e) <==> Finish(db, PrepareTransfer(db, r, now), now) == Err(e)
  {}

  /** Each error of a transfer is returned exactly when its own condition holds and no earlier check fails. */
  lemma TransferAnswers(db: Db, r: TransferRequest, now: Time, e: Error)
    requires Inv(db)
    ensures Apply(db, Transfer(r), now) == Rejected(e) <==>
            AccountsRefuse(db, r, e) || LimitsRefuse(db, r, now, e) || WritesRefuse(db, r, now, e)
  {
    TransferIsRefused(db, r, now, e);
    if !Usable(db, r) {
      AccountsAnswer(db, r, now, e);
    } else {
      LimitsAnswer(db, r, now, e);
      if WithinDay(db, r, now) && r.amount > 0 {
        BalancesInRange(db);
        WritesAnswer(db, r, now, e);
      }
    }
  }

  /** What a transfer that goes through returns: the posted row, its two postings and both accounts as they now are. */
  lemma TransferReceipt(db: Db, r: TransferRequest, now: Time)
    requires Inv(db) && CanTransfer(db, r, now)
    ensures var from, to := db.accounts[r.from], db.accounts[r.to];
            Apply(db, Transfer(r), now).Committed? && Apply(db, Transfer(r), now).reply == Transferred(Receipt(
              r.id, Txn(InternalTransfer, Posted, r.currency, r.amount, r.username, None, now, Some(now)),
              [Posting(r.id, CustomerLedger(r.from), -r.amount), Posting(r.id, CustomerLedger(r.to), r.amount)],
              from.(balance := from.balance - r.amount), to.(balance := to.balance + r.amount)), false)
  {
    RowsAfterTransfer(db, r, now);
    PlanOfTransfer(db, r, now);
    ReceiptIsOfAfter(db, r, now);
  }

  lemma PlanOfTransfer(db: Db, r: TransferRequest, now: Time)
    requires Inv(db) && CanTransfer(db, r, now)
    ensures PrepareTransfer(db, r, now) == Ok(TransferPlan(r, now))
  {
    assert WithinDay(db, r, now);
    LimitsAnswer(db, r, now, NoRows);
  }

  lemma RowsAfterTransfer(db: Db, r: TransferRequest, now: Time)
    requires Inv(db) && CanTransfer(db, r, now)
    ensures var from, to, db' := db.accounts[r.from], db.accounts[r.to], After(db, Transfer(r), now);
      && Apply(db, Transfer(r), now).Committed? && r.id in db'.txns && r.from in db'.accounts && r.to in db'.accounts
      && db'.txns[r.id] == Txn(InternalTransfer, Posted, r.currency, r.amount, r.username, None, now, Some(now))
      && db'.accounts[r.from] == from.(balance := from.balance - r.amount) && db'.accounts[r.to] == to.(balance := to.balance + r.amount)
  {
    TransferCommitsExactly(db, r, now);
  }

  lemma ReceiptIsOfAfter(db: Db, r: TransferRequest, now: Time)
    requires Apply(db, Transfer(r), now).Committed? && PrepareTransfer(db, r, now) == Ok(TransferPlan(r, now))
    ensures var db' := After(db, Transfer(r), now);
            && r.id in db'.txns && r.from in db'.accounts && r.to in db'.accounts
            && Apply(db, Transfer(r), now).reply ==
               Transferred(Receipt(r.id, db'.txns[r.id], TransferPlan(r, now).lines, db'.accounts[r.from], db'.accounts[r.to]), false)
  {
    ApplyMovesKeepsKeys(db.accounts, TransferPlan(r, now).moves, InsufficientBalance);
    MovedAccountsExist(db.accounts, TransferPlan(r, now).moves, InsufficientBalance);
  }

  lemma MovedAccountsExist(accounts: map<AccountId, Account>, moves: seq<Move>, e: Error)
    requires |moves| == 2 && ApplyMoves(accounts, moves, e).Ok?
    ensures moves[0].account in accounts && moves[1].account in accounts
  {
    assert moves[..1] == [moves[0]];
    OneMoveInTurn(accounts, moves[0], e);
  }

  // ---- deposits and withdrawals ----

  ghost predicate Chosen(db: Db, op: Op)
    requires op.DepositTo? || op.WithdrawFrom?
  {
    op.amount > 0 && op.account in db.accounts
  }

  ghost predicate SettlementPostable(db: Db, op: Op)
    requires op.DepositTo? || op.WithdrawFrom?
  {
    && Chosen(db, op) && db.accounts[op.account].status != Closed && (op.WithdrawFrom? ==> db.accounts[op.account].status == Active)
    && SettlementLedger(db.accounts[op.account].currency) in db.ledgers
  }

  /** Refused before anything is written. */
  ghost predicate ChecksRefuse(db: Db, op: Op, e: Error)
    requires op.DepositTo? || op.WithdrawFrom?
  {
    match e
    case AmountNotPositive => op.amount <= 0
    case AccountNotFound => op.amount > 0 && op.account !in db.accounts
    case AccountClosed => Chosen(db, op) && db.accounts[op.account].status == Closed
    case AccountFrozen => Chosen(db, op) && op.WithdrawFrom? && db.accounts[op.account].status == Frozen
    case NoRows =>
      && Chosen(db, op) && db.accounts[op.account].status != Closed && (op.WithdrawFrom? ==> db.accounts[op.account].status == Active)
      && SettlementLedger(db.accounts[op.account].currency) !in db.ledgers
    case _ => false
  }

  ghost predicate SettlementWritesRefuse(db: Db, op: Op, e: Error)
    requires op.DepositTo? || op.WithdrawFrom?
  {
    match e
    case DuplicateKey => SettlementPostable(db, op) && op.id in db.txns
    case InsufficientBalance => SettlementPostable(db, op) && op.id !in db.txns && op.WithdrawFrom? && db.accounts[op.account].balance < op.amount
    case OutOfRange => SettlementPostable(db, op) && op.id !in db.txns && op.DepositTo? && db.accounts[op.account].balance + op.amount > MAX_BIGINT
    case _ => false
  }

  lemma ChecksAnswer(db: Db, op: Op, now: Time, e: Error)
    requires Inv(db) && (op.DepositTo? || op.WithdrawFrom?)
    ensures Prepare(db, op, now) == Err(e) <==> ChecksRefuse(db, op, e)
    ensures if SettlementPostable(db, op) then Prepare(db, op, now) == Ok(SettlementOf(db, op, now)) else Prepare(db, op, now).Err?
  {
    if Chosen(db, op) {
      assert AccountAgrees(db, op.account);
      SettlementIsBalanced(db, op, now);
      if op.DepositTo? {
        DepositChecks(db, op, now, e);
      } else {
        WithdrawalChecks(db, op, now, e);
      }
    }
  }

  lemma DepositChecks(db: Db, op: Op, now: Time, e: Error)
    requires op.DepositTo? && Chosen(db, op) && CustomerLedger(op.account) in db.ledgers
    requires CheckBalanced(SettlementOf(db, op, now)) == Ok(SettlementOf(db, op, now))
    ensures Prepare(db, op, now) == Err(e) <==> ChecksRefuse(db, op, e)
    ensures if SettlementPostable(db, op) then Prepare(db, op, now) == Ok(SettlementOf(db, op, now)) else Prepare(db, op, now).Err?
  {}

  lemma WithdrawalChecks(db: Db, op: Op, now: Time, e: Error)
    requires op.WithdrawFrom? && Chosen(db, op) && CustomerLedger(op.account) in db.ledgers
    requires CheckBalanced(SettlementOf(db, op, now)) == Ok(SettlementOf(db, op, now))
    ensures Prepare(db, op, now) == Err(e) <==> ChecksRefuse(db, op, e)
    ensures if SettlementPostable(db, op) then Prepare(db, op, now) == Ok(SettlementOf(db, op, now)) else Prepare(db, op, now).Err?
  {
    var status := db.accounts[op.account].status;
    assert status == Active || status == Frozen || status == Closed;
  }

  lemma SettlementMoveAnswers(accounts: map<AccountId, Account>, op: Op, e: Error)
    requires (op.DepositTo? || op.WithdrawFrom?) && op.account in accounts && op.amount > 0 && 0 <= accounts[op.account].balance <= MAX_BIGINT
    ensures ApplyMoves(accounts, [Move(op.account, Signed(op))], InsufficientBalance) == Err(e) <==>
            || (e == InsufficientBalance && op.WithdrawFrom? && accounts[op.account].balance < op.amount)
            || (e == OutOfRange && op.DepositTo? && accounts[op.account].balance + op.amount > MAX_BIGINT)
  {
    OneMoveInTurn(accounts, Move(op.account, Signed(op)), InsufficientBalance);
  }

  lemma SettlementIsRefused(db: Db, op: Op, now: Time, e: Error)
    requires op.DepositTo? || op.WithdrawFrom?
    ensures Apply(db, op, now) == Rejected(e) <==> Finish(db, Prepare(db, op, now), now) == Err(e)
  {}

  lemma SettlementWritesAnswer(db: Db, op: Op, now: Time, e: Error)
    requires (op.DepositTo? || op.WithdrawFrom?) && SettlementPostable(db, op) && 0 <= db.accounts[op.account].balance <= MAX_BIGINT
    ensures Settle(db, SettlementOf(db, op, now), now) == Err(e) <==> SettlementWritesRefuse(db, op, e)
  {
    SettlementMoveAnswers(db.accounts, op, e);
    SettleRefused(db, SettlementOf(db, op, now), now, e);
  }

  /** Each error of a deposit or withdrawal is returned exactly when its own condition holds and no earlier check fails. */
  lemma SettlementAnswers(db: Db, op: Op, now: Time, e: Error)
    requires Inv(db) && (op.DepositTo? || op.WithdrawFrom?)
    ensures Apply(db, op, now) == Rejected(e) <==> ChecksRefuse(db, op, e) || SettlementWritesRefuse(db, op, e)
  {
    SettlementIsRefused(db, op, now, e);
    ChecksAnswer(db, op, now, e);
    if SettlementPostable(db, op) {
      assert AccountAgrees(db, op.account);
      SettlementWritesAnswer(db, op, now, e);
    }
  }

  // ---- reversals ----

  ghost predicate Reversible(db: Db, op: Op)
    requires op.Reverse?
  {
    op.valid && op.target in db.txns && db.txns[op.target].kind != Reversal && db.txns[op.target].status == Posted
  }

  ghost predicate ReversalPostable(db: Db, op: Op)
    requires op.Reverse?
  {
    Reversible(db, op) && !TouchesClosed(db, op.target) && op.id !in db.txns
  }

  /** The balance an account would be left with. */
  ghost function Left(db: Db, t: TxnId, a: AccountId): int
    requires a in db.accounts
  {
    db.accounts[a].balance - Total(db.postings, Cell(t, CustomerLedger(a)), Amount)
  }

  /** Each error of a reversal is returned exactly when its own condition holds and no earlier check fails; when one
      customer is short and another's balance would overflow, the posting that comes first decides. */
  lemma ReversalAnswers(db: Db, op: Op, now: Time)
    requires Inv(db) && op.Reverse?
    ensures var answer, t := Apply(db, op, now), op.target;
      && (answer == Rejected(InvalidOperatorAction) <==> !op.valid)
      && (answer == Rejected(TransactionNotFound) <==> op.valid && t !in db.txns)
      && (answer == Rejected(TransactionNotReversible) <==> op.valid && t in db.txns && db.txns[t].kind == Reversal)
      && (answer == Rejected(TransactionAlreadyReversed) <==> op.valid && t in db.txns && db.txns[t].kind != Reversal && db.txns[t].status == Reversed)
      && (answer == Rejected(AccountClosed) <==> Reversible(db, op) && TouchesClosed(db, t))
      && (answer == Rejected(DuplicateKey) <==> Reversible(db, op) && !TouchesClosed(db, t) && op.id in db.txns)
      && (answer == Rejected(ReversalInsufficientFunds) ==> ReversalPostable(db, op) && exists a | a in db.accounts :: Left(db, t, a) < 0)
      && (answer == Rejected(OutOfRange) ==> ReversalPostable(db, op) && exists a | a in db.accounts :: Left(db, t, a) > MAX_BIGINT)
      && (ReversalPostable(db, op) && !Affordable(db, t) ==> answer == Rejected(ReversalInsufficientFunds) || answer == Rejected(OutOfRange))
  {
    if op.valid && op.target in db.txns {
      assert TxnBalanced(db, op.target);
    }
    if Reversible(db, op) {
      ReversalPlanAnswers(db, op, now);
      if ReversalPostable(db, op) {
        ReversalCommitsExactly(db, op, now);
        if !Affordable(db, op.target) {
          ReversalMoveAnswers(db, op, now);
        }
      }
    }
  }

  lemma ReversalPlanAnswers(db: Db, op: Op, now: Time)
    requires Inv(db) && op.Reverse? && Reversible(db, op)
    ensures if TouchesClosed(db, op.target) then PrepareReversal(db, op, now) == Err(AccountClosed) else PrepareReversal(db, op, now).Ok?
    ensures PrepareReversal(db, op, now).Ok? ==>
              var plan := PrepareReversal(db, op, now).value;
              plan.id == op.id && plan.moves == OppositeMoves(PostingsOf(db.postings, op.target)) && plan.shortfall == ReversalInsufficientFunds
              && plan.txn.reversalOf == Some(op.target)
  {
    ReversalPlanExists(db, op, now);
    OppositeIsBalanced(db, op.target, op.id);
    ClosedAmongCustomers(db, op.target);
  }

  /** The first balance update that fails decides the error. */
  lemma {:induction false} MovesAnswer(accounts: map<AccountId, Account>, moves: seq<Move>, shortfall: Error) returns (i: nat)
    requires ApplyMoves(accounts, moves, shortfall).Err? && AtMostOnce(moves)
    requires forall m | m in moves :: m.account in accounts && 0 <= accounts[m.account].balance <= MAX_BIGINT
    ensures i < |moves|
    ensures var b := accounts[moves[i].account].balance + moves[i].delta;
            ApplyMoves(accounts, moves, shortfall) == (if b < 0 then Err(shortfall) else Err(OutOfRange)) && !(0 <= b <= MAX_BIGINT)
  {
    var n := |moves| - 1;
    var before := moves[..n];
    if ApplyMoves(accounts, before, shortfall).Err? {
      EarlierOnce(moves);
      i := MovesAnswer(accounts, before, shortfall);
    } else {
      i := n;
      UntouchedByEarlier(accounts, moves, shortfall);
    }
  }

  lemma EarlierOnce(moves: seq<Move>)
    requires moves != [] && AtMostOnce(moves)
    ensures AtMostOnce(moves[..|moves| - 1])
  {}

  lemma UntouchedByEarlier(accounts: map<AccountId, Account>, moves: seq<Move>, shortfall: Error)
    requires moves != [] && AtMostOnce(moves) && ApplyMoves(accounts, moves[..|moves| - 1], shortfall).Ok?
    requires moves[|moves| - 1].account in accounts
    ensures var a := moves[|moves| - 1].account;
            a in ApplyMoves(accounts, moves[..|moves| - 1], shortfall).value
            && ApplyMoves(accounts, moves[..|moves| - 1], shortfall).value[a] == accounts[a]
  {
    OthersUntouched(accounts, moves[..|moves| - 1], shortfall, moves[|moves| - 1].account);
  }

  lemma {:induction false} OthersUntouched(accounts: map<AccountId, Account>, moves: seq<Move>, shortfall: Error, a: AccountId)
    requires a in accounts && ApplyMoves(accounts, moves, shortfall).Ok? && forall m | m in moves :: m.account != a
    ensures a in ApplyMoves(accounts, moves, shortfall).value && ApplyMoves(accounts, moves, shortfall).value[a] == accounts[a]
  {
    if moves != [] {
      assert moves[|moves| - 1] in moves;
      OthersUntouched(accounts, moves[..|moves| - 1], shortfall, a);
    }
  }

  lemma {:induction false} OnlyMove(moves: seq<Move>, i: nat)
    requires AtMostOnce(moves) && i < |moves|
    ensures MoveTotal(moves, moves[i].account) == moves[i].delta
  {
    var n := |moves| - 1;
    EarlierOnce(moves);
    if i < n {
      OnlyMove(moves[..n], i);
    } else {
      NotMoved(moves[..n], moves[n].account);
    }
  }

  lemma ReversalMoveAnswers(db: Db, op: Op, now: Time)
    requires Inv(db) && op.Reverse? && ReversalPostable(db, op) && !Affordable(db, op.target)
    ensures var answer := Apply(db, op, now);
      || (answer == Rejected(ReversalInsufficientFunds) && exists a | a in db.accounts :: Left(db, op.target, a) < 0)
      || (answer == Rejected(OutOfRange) && exists a | a in db.accounts :: Left(db, op.target, a) > MAX_BIGINT)
  {
    var t, src := op.target, PostingsOf(db.postings, op.target);
    var moves := OppositeMoves(src);
    ReversalPlanAnswers(db, op, now);
    ReversalRefusedByMoves(db, op, now);
    MovesOfReversal(db, t);
    var i := MovesAnswer(db.accounts, moves, ReversalInsufficientFunds);
    var a := moves[i].account;
    OnlyMove(moves, i);
    OppositeMovesMatch(src, t, a);
    assert moves[i] in moves && Left(db, t, a) == db.accounts[a].balance + moves[i].delta;
  }

  lemma MovesOfReversal(db: Db, t: TxnId)
    requires Inv(db) && t in db.txns
    ensures var src := PostingsOf(db.postings, t);
      && AtMostOnce(OppositeMoves(src)) && (forall p | p in src :: p.txn == t)
      && (forall l :: Total(src, Cell(t, l), Amount) == Total(db.postings, Cell(t, l), Amount))
      && forall m | m in OppositeMoves(src) :: m.account in db.accounts && 0 <= db.accounts[m.account].balance <= MAX_BIGINT
  {
    var src := PostingsOf(db.postings, t);
    SourceLines(db, t);
    ReversalTouchesOnce(src, t);
    BalancesInRange(db);
    ClosedAmongCustomers(db, t);
    OppositeMovesTouch(src);
  }

  lemma {:induction false} OppositeMovesTouch(src: seq<Posting>)
    ensures forall m | m in OppositeMoves(src) :: m.account in CustomersOf(src)
  {
    if src != [] {
      OppositeMovesTouch(src[..|src| - 1]);
      assert forall p | p in src[..|src| - 1] :: p in src;
      assert src[|src| - 1] in src;
    }
  }

  lemma ReversalRefusedByMoves(db: Db, op: Op, now: Time)
    requires Inv(db) && op.Reverse? && ReversalPostable(db, op) && !Affordable(db, op.target)
    ensures var r := ApplyMoves(db.accounts, OppositeMoves(PostingsOf(db.postings, op.target)), ReversalInsufficientFunds);
            r.Err? && Apply(db, op, now) == Rejected(r.error)
  {
    ReversalPlanAnswers(db, op, now);
    ReversalSettles(db, op, PrepareReversal(db, op, now).value, now);
  }

  /** Everything a reversal that goes through writes, besides the balances. */
  lemma ReversalWrites(db: Db, op: Op, now: Time)
    requires Inv(db) && op.Reverse? && CanReverse(db, op)
    ensures var original, src, db' := db.txns[op.target], PostingsOf(db.postings, op.target), After(db, op, now);
      && db'.txns == db.txns[op.id := Txn(Reversal, Posted, original.currency, original.amount, op.actor, Some(op.target), now, Some(now))]
                            [op.target := original.(status := Reversed)]
      && |db'.postings| == |db.postings| + |src| && db.postings <= db'.postings
      && (forall i | 0 <= i < |src| :: db'.postings[|db.postings| + i] == Posting(op.id, src[i].ledger, -src[i].amount))
      && db'.ledgers == db.ledgers && db'.keys == db.keys
  {
    ReversalCommitsExactly(db, op, now);
  }

  // ---- administration ----

  /** Opening, closing, freezing and unfreezing: what each answers and changes. */
  lemma OpenAnswers(db: Db, a: AccountId, owner: string, currency: string, now: Time)
    requires Inv(db)
    ensures Apply(db, OpenAccount(a, owner, currency), now) ==
            if a in db.accounts then Rejected(DuplicateKey)
            else Committed(db.(accounts := db.accounts[a := Account(owner, 0, currency, Active)], ledgers := db.ledgers[CustomerLedger(a) := currency]), Done)
  {
    if a in db.accounts {
      assert AccountAgrees(db, a);
    }
  }

  /** An account is closed exactly by its owner, while it is open and empty; nothing else about it changes. */
  lemma CloseAnswers(db: Db, a: AccountId, username: string, now: Time)
    ensures var answer, db' := Apply(db, Close(a, username), now), After(db, Close(a, username), now);
      && (answer.Committed? <==> a in db.accounts && db.accounts[a].owner == username && db.accounts[a].status != Closed && db.accounts[a].balance == 0)
      && (answer.Committed? ==> db' == db.(accounts := db.accounts[a := db.accounts[a].(status := Closed)]))
      && (answer == Rejected(AccountNotFound) <==> a !in db.accounts)
      && (answer == Rejected(AccountNotOwned) <==> a in db.accounts && db.accounts[a].owner != username)
      && (answer == Rejected(AccountClosed) <==> a in db.accounts && db.accounts[a].owner == username && db.accounts[a].status == Closed)
      && (answer == Rejected(AccountBalanceNotZero) <==>
            a in db.accounts && db.accounts[a].owner == username && db.accounts[a].status != Closed && db.accounts[a].balance != 0)
  {}

  /** An operator moves an account between active and frozen only, and never to the status it has. */
  lemma StatusAnswers(db: Db, a: AccountId, target: AccountStatus, valid: bool, now: Time)
    ensures var op := SetStatus(a, target, valid);
      var answer, db' := Apply(db, op, now), After(db, op, now);
      && (answer.Committed? <==> valid && a in db.accounts && {target, db.accounts[a].status} == {Active, Frozen})
      && (answer.Committed? ==> db' == db.(accounts := db.accounts[a := db.accounts[a].(status := target)]))
      && (answer == Rejected(InvalidOperatorAction) <==> !valid)
      && (answer == Rejected(InvalidTargetStatus) <==> valid && target == Closed)
      && (answer == Rejected(AccountNotFound) <==> valid && target != Closed && a !in db.accounts)
      && (answer == Rejected(AccountClosed) <==> valid && target != Closed && a in db.accounts && db.accounts[a].status == Closed)
      && (answer == Rejected(AlreadyFrozen) <==> valid && target == Frozen && a in db.accounts && db.accounts[a].status == Frozen)
      && (answer == Rejected(AlreadyActive) <==> valid && target == Active && a in db.accounts && db.accounts[a].status == Active)
  {}
}
