/** The money operations as functions from one committed state to the next. Each operation first
    prepares a plan (lookups and checks, in the order the source makes them) and then settles it. */
module Operations {
  import opened Common
  import opened Tables

  const PER_TRANSFER_LIMIT := 1_000_000
  const DAILY_LIMIT := 2_500_000
  const DAY: Time := 86_400_000_000

  datatype TransferRequest = TransferRequest(id: TxnId, from: AccountId, to: AccountId, amount: int,
                                             currency: string, username: string)

  /** `id` is the fresh UUID drawn for the new transaction; `valid` is the verdict of
      `validateOperatorAction` on the operator's actor, reason and correlation ID. */
  datatype Op =
    | OpenAccount(account: AccountId, owner: string, currency: string)
    | Transfer(req: TransferRequest)
    | KeyedTransfer(req: TransferRequest, key: string, hash: string)
    | DepositTo(id: TxnId, account: AccountId, amount: int, actor: string)
    | WithdrawFrom(id: TxnId, account: AccountId, amount: int, actor: string)
    | Reverse(id: TxnId, target: TxnId, actor: string, valid: bool)
    | Close(account: AccountId, username: string)
    | SetStatus(account: AccountId, status: AccountStatus, valid: bool)
    | PurgeKeys

  datatype Move = Move(account: AccountId, delta: int)
  datatype Plan = Plan(id: TxnId, txn: Txn, lines: seq<Posting>, moves: seq<Move>, shortfall: Error)

  datatype Reply = Done | Transferred(receipt: Receipt, replayed: bool)
  datatype Outcome = Committed(db: Db, reply: Reply) | Rejected(error: Error)

  // ---- queries ----

  function DayStart(t: Time): Time { t - t % DAY }

  predicate CountsTowardsLimit(txns: map<TxnId, Txn>, l: LedgerId, p: Posting) {
    && p.ledger == l && p.amount < 0 && p.txn in txns
    && txns[p.txn].kind == InternalTransfer
    && (txns[p.txn].status == Posted || txns[p.txn].status == Reversed)
  }

  /** `GetDailyOutgoingTransferTotal`. */
  function OutgoingSince(ps: seq<Posting>, txns: map<TxnId, Txn>, l: LedgerId, since: Time): int {
    if ps == [] then 0
    else
      var last := ps[|ps| - 1];
      OutgoingSince(ps[..|ps| - 1], txns, l, since) +
      (if CountsTowardsLimit(txns, l, last) && txns[last.txn].createdAt >= since then txns[last.txn].amount else 0)
  }

  // ---- plans ----

  function NewTxn(kind: TxnKind, currency: string, amount: int, actor: string, reversalOf: Option<TxnId>, now: Time): Txn {
    Txn(kind, Pending, currency, amount, actor, reversalOf, now, None)
  }

  function LineTotal(lines: seq<Posting>): int {
    if lines == [] then 0 else LineTotal(lines[..|lines| - 1]) + lines[|lines| - 1].amount
  }

  /** The checks at the head of `createBalancedTransaction`. */
  function CheckBalanced(plan: Plan): Result<Plan> {
    if plan.txn.amount <= 0 then Err(AmountNotPositive)
    else if |plan.lines| < 2 then Err(TooFewPostings)
    else if exists p | p in plan.lines :: p.amount == 0 then Err(ZeroPosting)
    else if LineTotal(plan.lines) != 0 then Err(Unbalanced)
    else Ok(plan)
  }

  function TransferPlan(r: TransferRequest, now: Time): Plan {
    Plan(r.id, NewTxn(InternalTransfer, r.currency, r.amount, r.username, None, now),
         [Posting(r.id, CustomerLedger(r.from), -r.amount), Posting(r.id, CustomerLedger(r.to), r.amount)],
         [Move(r.from, -r.amount), Move(r.to, r.amount)], InsufficientBalance)
  }

  function PrepareTransfer(db: Db, r: TransferRequest, now: Time): Result<Plan> {
    if r.from !in db.accounts then Err(AccountNotFound)
    else if r.to !in db.accounts then Err(RecipientNotFound)
    else if r.from == r.to then Err(SameAccount)
    else
      var from, to := db.accounts[r.from], db.accounts[r.to];
      if from.owner != r.username then Err(AccountNotOwned)
      else if from.currency != r.currency || to.currency != r.currency then Err(CurrencyMismatch)
      else if from.status == Frozen then Err(AccountFrozen)
      else if from.status == Closed || to.status == Closed then Err(AccountClosed)
      else if r.currency != "USD" && r.currency != "EUR" then Err(CurrencyMismatch)
      else if r.amount > PER_TRANSFER_LIMIT then Err(PerTransferLimitExceeded)
      else if CustomerLedger(r.from) !in db.ledgers then Err(NoRows)
      else if OutgoingSince(db.postings, db.txns, CustomerLedger(r.from), DayStart(now)) > DAILY_LIMIT - r.amount
        then Err(DailyTransferLimitExceeded)
      else if CustomerLedger(r.to) !in db.ledgers then Err(NoRows)
      else CheckBalanced(TransferPlan(r, now))
  }

  function SettlementPlan(id: TxnId, account: AccountId, currency: string, amount: int, kind: TxnKind, actor: string, now: Time): Plan {
    var signed := if kind == Withdrawal then -amount else amount;
    Plan(id, NewTxn(kind, currency, amount, if actor == "" then "operator_cli" else actor, None, now),
         [Posting(id, SettlementLedger(currency), -signed), Posting(id, CustomerLedger(account), signed)],
         [Move(account, signed)], InsufficientBalance)
  }

  /** `settlementMovementTx`, for a deposit or a withdrawal. */
  function PrepareSettlement(db: Db, id: TxnId, account: AccountId, amount: int, kind: TxnKind, actor: string, now: Time)
    : Result<Plan>
  {
    if amount <= 0 then Err(AmountNotPositive)
    else if account !in db.accounts then Err(AccountNotFound)
    else
      var row := db.accounts[account];
      if row.status == Closed then Err(AccountClosed)
      else if kind == Withdrawal && row.status == Frozen then Err(AccountFrozen)
      else if CustomerLedger(account) !in db.ledgers then Err(NoRows)
      else if SettlementLedger(row.currency) !in db.ledgers then Err(NoRows)
      else CheckBalanced(SettlementPlan(id, account, row.currency, amount, kind, actor, now))
  }

  function OppositeLines(src: seq<Posting>, id: TxnId): (r: seq<Posting>)
    ensures |r| == |src|
    ensures forall i | 0 <= i < |src| :: r[i] == Posting(id, src[i].ledger, -src[i].amount)
  {
    seq(|src|, i requires 0 <= i < |src| => Posting(id, src[i].ledger, -src[i].amount))
  }

  /** One balance update per customer posting of the original, in posting order. */
  function OppositeMoves(src: seq<Posting>): seq<Move> {
    if src == [] then []
    else
      var last := src[|src| - 1];
      OppositeMoves(src[..|src| - 1]) +
      (if last.ledger.CustomerLedger? then [Move(last.ledger.account, -last.amount)] else [])
  }

  function CustomersOf(src: seq<Posting>): set<AccountId> {
    set p | p in src && p.ledger.CustomerLedger? :: p.ledger.account
  }

  function ReversalPlan(original: Txn, r: Op, src: seq<Posting>, now: Time): Result<Plan>
    requires r.Reverse?
  {
    CheckBalanced(Plan(
      r.id, NewTxn(Reversal, original.currency, original.amount, r.actor, Some(r.target), now),
      OppositeLines(src, r.id), OppositeMoves(src), ReversalInsufficientFunds))
  }

  /** The checks on the locked original row. */
  function CheckReversible(original: Txn): Option<Error> {
    if original.kind == Reversal then Some(TransactionNotReversible)
    else if original.status == Reversed then Some(TransactionAlreadyReversed)
    else if original.status != Posted then Some(TransactionNotPosted)
    else None
  }

  function PrepareReversal(db: Db, r: Op, now: Time): Result<Plan>
    requires r.Reverse?
  {
    if !r.valid then Err(InvalidOperatorAction)
    else if r.target !in db.txns then Err(TransactionNotFound)
    else if CheckReversible(db.txns[r.target]).Some? then Err(CheckReversible(db.txns[r.target]).value)
    else
      var src := PostingsOf(db.postings, r.target);
      if |src| < 2 then Err(TooFewPostings)
      else if exists a | a in CustomersOf(src) :: a !in db.accounts then Err(NoRows)
      else if exists a | a in CustomersOf(src) :: db.accounts[a].status == Closed then Err(AccountClosed)
      else ReversalPlan(db.txns[r.target], r, src, now)
  }

  predicate IsMoney(op: Op) {
    op.Transfer? || op.KeyedTransfer? || op.DepositTo? || op.WithdrawFrom? || op.Reverse?
  }

  function Prepare(db: Db, op: Op, now: Time): Result<Plan>
    requires IsMoney(op)
  {
    match op
    case Transfer(r) => PrepareTransfer(db, r, now)
    case KeyedTransfer(r, _, _) => PrepareTransfer(db, r, now)
    case DepositTo(id, a, amount, actor) => PrepareSettlement(db, id, a, amount, Deposit, actor, now)
    case WithdrawFrom(id, a, amount, actor) => PrepareSettlement(db, id, a, amount, Withdrawal, actor, now)
    case Reverse(_, _, _, _) => PrepareReversal(db, op, now)
  }

  // ---- settling a plan ----

  /** `AddAccountBalanceInternal`: guarded by `balance + delta >= 0`, in 64-bit arithmetic.
      `subtractAccountBalance` reports a missing row or a failed guard as a shortfall. */
  function AddBalance(accounts: map<AccountId, Account>, m: Move, shortfall: Error): Result<Account> {
    if m.account in accounts && accounts[m.account].balance + m.delta > MAX_BIGINT then Err(OutOfRange)
    else if m.account !in accounts || accounts[m.account].balance + m.delta < 0
      then Err(if m.delta < 0 then shortfall else NoRows)
    else Ok(accounts[m.account].(balance := accounts[m.account].balance + m.delta))
  }

  function ApplyMoves(accounts: map<AccountId, Account>, moves: seq<Move>, shortfall: Error): Result<map<AccountId, Account>> {
    if moves == [] then Ok(accounts)
    else
      var last := moves[|moves| - 1];
      match ApplyMoves(accounts, moves[..|moves| - 1], shortfall)
      case Err(e) => Err(e)
      case Ok(before) =>
        match AddBalance(before, last, shortfall)
        case Err(e) => Err(e)
        case Ok(row) => Ok(before[last.account := row])
  }

  lemma OneMoveInTurn(accounts: map<AccountId, Account>, m: Move, e: Error)
    ensures ApplyMoves(accounts, [m], e) ==
      match AddBalance(accounts, m, e) { case Err(x) => Err(x) case Ok(row) => Ok(accounts[m.account := row]) }
  {
    assert [m][..0] == [];
    assert ApplyMoves(accounts, [], e) == Ok(accounts);
  }

  function PostedRow(plan: Plan, now: Time): Txn { plan.txn.(status := Posted, postedAt := Some(now)) }

  /** Inserts the transaction and its postings, updates the cached balances, marks the transaction
      posted and, for a reversal, marks the original reversed. */
  function Settle(db: Db, plan: Plan, now: Time): Result<Db> {
    if plan.id in db.txns then Err(DuplicateKey)
    else
      match ApplyMoves(db.accounts, plan.moves, plan.shortfall)
      case Err(e) => Err(e)
      case Ok(accounts) =>
        var posted := db.txns[plan.id := PostedRow(plan, now)];
        match plan.txn.reversalOf
        case None => Ok(db.(accounts := accounts, txns := posted, postings := db.postings + plan.lines))
        case Some(t) =>
          if t in posted && posted[t].status == Posted then
            Ok(db.(accounts := accounts, txns := posted[t := posted[t].(status := Reversed)],
                   postings := db.postings + plan.lines))
          else Err(NoRows)
  }

  function Finish(db: Db, plan: Result<Plan>, now: Time): Result<Db> {
    match plan
    case Err(e) => Err(e)
    case Ok(p) => Settle(db, p, now)
  }

  function PrepareAndSettle(db: Db, op: Op, now: Time): Result<Db>
    requires IsMoney(op)
  {
    Finish(db, Prepare(db, op, now), now)
  }

  // ---- account administration ----

  function OpenRow(op: Op): Account
    requires op.OpenAccount?
  {
    Account(op.owner, 0, op.currency, Active)
  }

  function PrepareClose(db: Db, account: AccountId, username: string): Result<Account> {
    if account !in db.accounts then Err(AccountNotFound)
    else
      var row := db.accounts[account];
      if row.owner != username then Err(AccountNotOwned)
      else if row.status == Closed then Err(AccountClosed)
      else if row.balance != 0 then Err(AccountBalanceNotZero)
      else Ok(row.(status := Closed))
  }

  function PrepareStatus(db: Db, account: AccountId, target: AccountStatus, valid: bool): Result<Account> {
    if !valid then Err(InvalidOperatorAction)
    else if target == Closed then Err(InvalidTargetStatus)
    else if account !in db.accounts then Err(AccountNotFound)
    else
      var row := db.accounts[account];
      if row.status == Closed then Err(AccountClosed)
      else if row.status == target then Err(if target == Frozen then AlreadyFrozen else AlreadyActive)
      else Ok(row.(status := target))
  }

  // ---- idempotency keys ----

  function KeyOf(op: Op): KeyId
    requires op.KeyedTransfer?
  {
    KeyId(op.req.username, op.key)
  }

  predicate KeyWellFormed(key: string, hash: string) { key != "" && |key| <= 128 && |hash| == 32 }

  predicate Expired(keys: map<KeyId, KeyRow>, k: KeyId, now: Time) { k in keys && keys[k].expiresAt <= now }

  function ReceiptOf(db: Db, r: TransferRequest, lines: seq<Posting>): Receipt
    requires r.id in db.txns && r.from in db.accounts && r.to in db.accounts
  {
    Receipt(r.id, db.txns[r.id], lines, db.accounts[r.from], db.accounts[r.to])
  }

  lemma {:induction false} ApplyMovesKeepsKeys(accounts: map<AccountId, Account>, moves: seq<Move>, shortfall: Error)
    ensures var r := ApplyMoves(accounts, moves, shortfall);
            r.Ok? ==> r.value.Keys == accounts.Keys
  {
    if moves != [] {
      ApplyMovesKeepsKeys(accounts, moves[..|moves| - 1], shortfall);
    }
  }

  function ApplyTransfer(db: Db, op: Op, now: Time): Outcome
    requires op.Transfer? || op.KeyedTransfer?
  {
    match PrepareAndSettle(db, op, now)
    case Err(e) => Rejected(e)
    case Ok(db') =>
      var plan := Prepare(db, op, now).value;
      ApplyMovesKeepsKeys(db.accounts, plan.moves, plan.shortfall);
      Committed(db', Transferred(ReceiptOf(db', op.req, plan.lines), false))
  }

  /** `IdempotentTransferTx`: drop the key if it has expired, insert it if absent, otherwise replay. */
  function ApplyKeyed(db: Db, op: Op, now: Time): Outcome
    requires op.KeyedTransfer?
  {
    var k := KeyId(op.req.username, op.key);
    if !KeyWellFormed(op.key, op.hash) then Rejected(InvalidIdempotencyKey)
    else if k in db.keys && !Expired(db.keys, k, now) then
      var row := db.keys[k];
      if row.hash != op.hash then Rejected(IdempotencyConflict)
      else if row.result.None? then Rejected(IncompleteRecord)
      else Committed(db, Transferred(row.result.value, true))
    else
      match ApplyTransfer(db, op, now)
      case Rejected(e) => Rejected(e)
      case Committed(db', reply) =>
        Committed(db'.(keys := db.keys[k := KeyRow(op.hash, Some(reply.receipt), now + KEY_LIFETIME)]), reply)
  }

  function UnexpiredKeys(keys: map<KeyId, KeyRow>, now: Time): map<KeyId, KeyRow> {
    map k | k in keys && !Expired(keys, k, now) :: keys[k]
  }

  function Update(db: Db, account: AccountId, row: Result<Account>): Outcome {
    match row
    case Err(e) => Rejected(e)
    case Ok(a) => Committed(db.(accounts := db.accounts[account := a]), Done)
  }

  /** One operation of a run; `now` is the start time of its database transaction. */
  datatype Step = Step(op: Op, now: Time)

  /** One database transaction, run alone. */
  function Apply(db: Db, op: Op, now: Time): Outcome {
    match op
    case OpenAccount(a, _, currency) =>
      if a in db.accounts || CustomerLedger(a) in db.ledgers then Rejected(DuplicateKey)
      else Committed(db.(accounts := db.accounts[a := OpenRow(op)], ledgers := db.ledgers[CustomerLedger(a) := currency]), Done)
    case Transfer(_) => ApplyTransfer(db, op, now)
    case KeyedTransfer(_, _, _) => ApplyKeyed(db, op, now)
    case Close(a, username) => Update(db, a, PrepareClose(db, a, username))
    case SetStatus(a, target, valid) => Update(db, a, PrepareStatus(db, a, target, valid))
    case PurgeKeys => Committed(db.(keys := UnexpiredKeys(db.keys, now)), Done)
    case _ =>
      match PrepareAndSettle(db, op, now)
      case Err(e) => Rejected(e)
      case Ok(db') => Committed(db', Done)
  }

  /** The state after a transaction, committed or rolled back. */
  function After(db: Db, op: Op, now: Time): Db {
    match Apply(db, op, now)
    case Committed(db', _) => db'
    case Rejected(_) => db
  }
}
