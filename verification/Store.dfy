/** The transactions as the store runs them: statement by statement on the tables, rolled back on
    error. Each is proved against its specification in `Operations`. */
module Store {
  import opened Common
  import opened Tables
  import opened Operations

  datatype PostingParams = PostingParams(ledger: LedgerId, amount: int)

  function Lines(id: TxnId, ps: seq<PostingParams>): (r: seq<Posting>)
    ensures |r| == |ps|
    ensures forall i | 0 <= i < |ps| :: r[i] == Posting(id, ps[i].ledger, ps[i].amount)
  {
    seq(|ps|, i requires 0 <= i < |ps| => Posting(id, ps[i].ledger, ps[i].amount))
  }

  /** The balance check of `createBalancedTransaction`, which sees only amounts. */
  function BalanceError(amount: int, lines: seq<Posting>): Option<Error> {
    if amount <= 0 then Some(AmountNotPositive)
    else if |lines| < 2 then Some(TooFewPostings)
    else if exists p | p in lines :: p.amount == 0 then Some(ZeroPosting)
    else if LineTotal(lines) != 0 then Some(Unbalanced)
    else None
  }

  class SQLStore {
    var accounts: map<AccountId, Account>
    var ledgers: map<LedgerId, string>
    var txns: map<TxnId, Txn>
    var postings: seq<Posting>
    var keys: map<KeyId, KeyRow>

    function State(): Db
      reads this
    {
      Db(accounts, ledgers, txns, postings, keys)
    }

    constructor (db: Db)
      ensures State() == db
    {
      accounts, ledgers, txns, postings, keys := db.accounts, db.ledgers, db.txns, db.postings, db.keys;
    }

    method Rollback(saved: Db)
      modifies this
      ensures State() == saved
    {
      accounts, ledgers, txns, postings, keys := saved.accounts, saved.ledgers, saved.txns, saved.postings, saved.keys;
    }

    // ---- statements ----

    method AddAccountBalanceInternal(a: AccountId, amount: int, shortfall: Error) returns (r: Result<Account>)
      modifies this`accounts
      ensures r == AddBalance(old(accounts), Move(a, amount), shortfall)
      ensures accounts == if r.Ok? then old(accounts)[a := r.value] else old(accounts)
    {
      if a in accounts && accounts[a].balance + amount > MAX_BIGINT {
        return Err(OutOfRange);
      }
      if a !in accounts || accounts[a].balance + amount < 0 {
        return Err(if amount < 0 then shortfall else NoRows);
      }
      var row := accounts[a].(balance := accounts[a].balance + amount);
      accounts := accounts[a := row];
      return Ok(row);
    }

    /** `createBalancedTransaction`: validate, insert the pending row, insert each posting. */
    method CreateBalancedTransaction(id: TxnId, txn: Txn, ps: seq<PostingParams>) returns (r: Result<seq<Posting>>)
      modifies this`txns, this`postings
      ensures r.Ok? <==> BalanceError(txn.amount, Lines(id, ps)).None? && id !in old(txns)
      ensures r.Err? ==> r.error == if BalanceError(txn.amount, Lines(id, ps)).Some? then BalanceError(txn.amount, Lines(id, ps)).value else DuplicateKey
      ensures r.Ok? ==> r.value == Lines(id, ps) && txns == old(txns)[id := txn] && postings == old(postings) + Lines(id, ps)
    {
      var lines := Lines(id, ps);
      if txn.amount <= 0 {
        return Err(AmountNotPositive);
      }
      if |ps| < 2 {
        return Err(TooFewPostings);
      }
      var total := 0;
      for i := 0 to |ps|
        invariant total == LineTotal(lines[..i])
        invariant forall p | p in lines[..i] :: p.amount != 0
      {
        if ps[i].amount == 0 {
          assert lines[i] in lines;
          return Err(ZeroPosting);
        }
        assert lines[..i + 1][..i] == lines[..i];
        total := total + ps[i].amount;
      }
      assert lines[..|ps|] == lines;
      if total != 0 {
        return Err(Unbalanced);
      }
      if id in txns {
        return Err(DuplicateKey);
      }
      txns := txns[id := txn];
      var created: seq<Posting> := [];
      for i := 0 to |ps|
        invariant created == lines[..i]
        invariant postings == old(postings) + created
        invariant txns == old(txns)[id := txn]
      {
        var row := Posting(id, ps[i].ledger, ps[i].amount);
        postings := postings + [row];
        created := created + [row];
      }
      return Ok(created);
    }

    method MarkBankingTransactionPosted(id: TxnId, now: Time) returns (r: Result<Txn>)
      modifies this`txns
      ensures r.Ok? <==> id in old(txns) && old(txns)[id].status == Pending
      ensures r.Ok? ==> r.value == old(txns)[id].(status := Posted, postedAt := Some(now)) && txns == old(txns)[id := r.value]
      ensures r.Err? ==> r.error == NoRows && txns == old(txns)
    {
      if id !in txns || txns[id].status != Pending {
        return Err(NoRows);
      }
      txns := txns[id := txns[id].(status := Posted, postedAt := Some(now))];
      return Ok(txns[id]);
    }

    method MarkBankingTransactionReversed(id: TxnId) returns (r: Result<Txn>)
      modifies this`txns
      ensures r.Ok? <==> id in old(txns) && old(txns)[id].status == Posted
      ensures r.Ok? ==> r.value == old(txns)[id].(status := Reversed) && txns == old(txns)[id := r.value]
      ensures r.Err? ==> r.error == NoRows && txns == old(txns)
    {
      if id !in txns || txns[id].status != Posted {
        return Err(NoRows);
      }
      txns := txns[id := txns[id].(status := Reversed)];
      return Ok(txns[id]);
    }

    // ---- transfers ----

    /** Lookups and checks of `transferWithQueries`, up to the creation of the transaction. */
    method CheckTransfer(req: TransferRequest, now: Time) returns (r: Option<Error>)
      ensures PrepareTransfer(State(), req, now) == if r.None? then CheckBalanced(TransferPlan(req, now)) else Err(r.value)
    {
      if req.from !in accounts { return Some(AccountNotFound); }
      if req.to !in accounts { return Some(RecipientNotFound); }
      if req.from == req.to { return Some(SameAccount); }
      var from, to := accounts[req.from], accounts[req.to];
      if from.owner != req.username { return Some(AccountNotOwned); }
      if from.currency != req.currency || to.currency != req.currency { return Some(CurrencyMismatch); }
      if from.status == Frozen { return Some(AccountFrozen); }
      if from.status == Closed || to.status == Closed { return Some(AccountClosed); }
      if req.currency != "USD" && req.currency != "EUR" { return Some(CurrencyMismatch); }
      if req.amount > PER_TRANSFER_LIMIT { return Some(PerTransferLimitExceeded); }
      if CustomerLedger(req.from) !in ledgers { return Some(NoRows); }
      var dailyTotal := OutgoingSince(postings, txns, CustomerLedger(req.from), DayStart(now));
      if dailyTotal > DAILY_LIMIT - req.amount { return Some(DailyTransferLimitExceeded); }
      if CustomerLedger(req.to) !in ledgers { return Some(NoRows); }
      return None;
    }

    method TransferWithQueries(req: TransferRequest, now: Time) returns (r: Result<Receipt>)
      modifies this
      ensures match PrepareAndSettle(old(State()), Transfer(req), now)
              case Err(e) => r == Err(e)
              case Ok(db) =>
                && State() == db && req.id in txns && req.from in accounts && req.to in accounts
                && r == Ok(ReceiptOf(db, req, TransferPlan(req, now).lines))
    {
      var checked := CheckTransfer(req, now);
      if checked.Some? { return Err(checked.value); }
      r := PostTransfer(req, now);
    }

    /** The writing half of `transferWithQueries`. */
    method PostTransfer(req: TransferRequest, now: Time) returns (r: Result<Receipt>)
      modifies this
      ensures match Finish(old(State()), CheckBalanced(TransferPlan(req, now)), now)
              case Err(e) => r == Err(e)
              case Ok(db) =>
                && State() == db && req.id in txns && req.from in accounts && req.to in accounts
                && (req.from != req.to ==> r == Ok(ReceiptOf(db, req, TransferPlan(req, now).lines)))
    {
      var params := [PostingParams(CustomerLedger(req.from), -req.amount), PostingParams(CustomerLedger(req.to), req.amount)];
      assert Lines(req.id, params) == TransferPlan(req, now).lines;
      FinishInTurn(State(), TransferPlan(req, now), now);
      TwoMovesInTurn(accounts, Move(req.from, -req.amount), Move(req.to, req.amount), InsufficientBalance);
      var created := CreateBalancedTransaction(
        req.id, NewTxn(InternalTransfer, req.currency, req.amount, req.username, None, now), params);
      if created.Err? { return Err(created.error); }
      var debited := AddAccountBalanceInternal(req.from, -req.amount, InsufficientBalance);
      if debited.Err? { return Err(debited.error); }
      var credited := AddAccountBalanceInternal(req.to, req.amount, InsufficientBalance);
      if credited.Err? { return Err(credited.error); }
      var posted := MarkBankingTransactionPosted(req.id, now);
      return Ok(Receipt(req.id, txns[req.id], created.value, debited.value, credited.value));
    }

    method TransferTx(req: TransferRequest, now: Time) returns (r: Result<Receipt>)
      modifies this
      ensures State() == After(old(State()), Transfer(req), now)
      ensures match Apply(old(State()), Transfer(req), now)
              case Rejected(e) => r == Err(e)
              case Committed(_, reply) => r == Ok(reply.receipt)
    {
      var saved := State();
      r := TransferWithQueries(req, now);
      if r.Err? {
        Rollback(saved);
      }
    }

    /** The key reservation, the transfer and the replay snapshot commit or roll back together. */
    method IdempotentTransferTx(req: TransferRequest, key: string, hash: string, now: Time) returns (r: Result<Receipt>, replayed: bool)
      modifies this
      ensures State() == After(old(State()), KeyedTransfer(req, key, hash), now)
      ensures match Apply(old(State()), KeyedTransfer(req, key, hash), now)
              case Rejected(e) => r == Err(e)
              case Committed(_, reply) => r == Ok(reply.receipt) && replayed == reply.replayed
    {
      replayed := false;
      if key == "" || |key| > 128 || |hash| != 32 {
        return Err(InvalidIdempotencyKey), false;
      }
      var saved := State();
      var k := KeyId(req.username, key);
      if Expired(keys, k, now) {
        keys := keys - {k};
      }
      if k in keys {
        assert State() == saved && !Expired(saved.keys, k, now);
        r := ReplaySnapshot(keys[k], hash);
        return r, r.Ok?;
      }
      assert State() == saved.(keys := keys) && (k !in saved.keys || Expired(saved.keys, k, now));
      FreshKeyed(saved, keys[k := KeyRow(hash, None, now + KEY_LIFETIME)], KeyedTransfer(req, key, hash), now);
      r := TransferUnderKey(k, req, hash, now);
      if r.Err? {
        Rollback(saved);
      }
    }

    /** The branch of `IdempotentTransferTx` that inserts the key, moves the money and completes the key. */
    method TransferUnderKey(k: KeyId, req: TransferRequest, hash: string, now: Time) returns (r: Result<Receipt>)
      modifies this
      ensures match PrepareAndSettle(old(State()).(keys := old(keys)[k := KeyRow(hash, None, now + KEY_LIFETIME)]), Transfer(req), now)
              case Err(e) => r == Err(e)
              case Ok(db) =>
                && req.id in db.txns && req.from in db.accounts && req.to in db.accounts
                && var receipt := ReceiptOf(db, req, TransferPlan(req, now).lines);
                && r == Ok(receipt)
                && State() == db.(keys := old(keys)[k := KeyRow(hash, Some(receipt), now + KEY_LIFETIME)])
    {
      var reserved := KeyRow(hash, None, now + KEY_LIFETIME);
      keys := keys[k := reserved];
      r := TransferWithQueries(req, now);
      if r.Ok? {
        assert keys == old(keys)[k := reserved];
        keys := keys[k := reserved.(result := Some(r.value))];
      }
    }

    method ReplaySnapshot(existing: KeyRow, hash: string) returns (r: Result<Receipt>)
      ensures r == if existing.hash != hash then Err(IdempotencyConflict)
                   else if existing.result.None? then Err(IncompleteRecord)
                   else Ok(existing.result.value)
    {
      if existing.hash != hash { return Err(IdempotencyConflict); }
      if existing.result.None? { return Err(IncompleteRecord); }
      return Ok(existing.result.value);
    }

    // ---- deposits and withdrawals ----

    method CheckSettlement(op: Op, kind: TxnKind, now: Time) returns (r: Result<string>)
      requires (op.DepositTo? && kind == Deposit) || (op.WithdrawFrom? && kind == Withdrawal)
      ensures Prepare(State(), op, now) ==
        if r.Ok? then CheckBalanced(SettlementPlan(op.id, op.account, r.value, op.amount, kind, op.actor, now)) else Err(r.error)
    {
      if op.amount <= 0 { return Err(AmountNotPositive); }
      if op.account !in accounts { return Err(AccountNotFound); }
      var row := accounts[op.account];
      if row.status == Closed { return Err(AccountClosed); }
      if kind == Withdrawal && row.status == Frozen { return Err(AccountFrozen); }
      if CustomerLedger(op.account) !in ledgers { return Err(NoRows); }
      if SettlementLedger(row.currency) !in ledgers { return Err(NoRows); }
      return Ok(row.currency);
    }

    method SettlementMovementTx(op: Op, now: Time) returns (r: Option<Error>)
      requires op.DepositTo? || op.WithdrawFrom?
      modifies this
      ensures State() == After(old(State()), op, now)
      ensures r == match Apply(old(State()), op, now) { case Rejected(e) => Some(e) case Committed(_, _) => None }
    {
      var saved := State();
      var kind := if op.DepositTo? then Deposit else Withdrawal;
      var currency := CheckSettlement(op, kind, now);
      if currency.Err? { return Some(currency.error); }
      r := PostSettlement(op, kind, currency.value, now);
      if r.Some? {
        Rollback(saved);
      }
    }

    method PostSettlement(op: Op, kind: TxnKind, currency: string, now: Time) returns (r: Option<Error>)
      requires (op.DepositTo? && kind == Deposit) || (op.WithdrawFrom? && kind == Withdrawal)
      modifies this
      ensures match Finish(old(State()), CheckBalanced(SettlementPlan(op.id, op.account, currency, op.amount, kind, op.actor, now)), now)
              case Err(e) => r == Some(e)
              case Ok(db) => r == None && State() == db
    {
      ghost var plan := SettlementPlan(op.id, op.account, currency, op.amount, kind, op.actor, now);
      var actor := if op.actor == "" then "operator_cli" else op.actor;
      var params := [PostingParams(SettlementLedger(currency), -op.amount), PostingParams(CustomerLedger(op.account), op.amount)];
      if kind == Withdrawal {
        params := [PostingParams(params[0].ledger, op.amount), PostingParams(params[1].ledger, -op.amount)];
      }
      assert Lines(op.id, params) == plan.lines;
      FinishInTurn(State(), plan, now);
      OneMoveInTurn(accounts, plan.moves[0], InsufficientBalance);
      var created := CreateBalancedTransaction(op.id, NewTxn(kind, currency, op.amount, actor, None, now), params);
      if created.Err? { return Some(created.error); }
      var updated := AddAccountBalanceInternal(op.account, if kind == Withdrawal then -op.amount else op.amount, InsufficientBalance);
      if updated.Err? { return Some(updated.error); }
      var posted := MarkBankingTransactionPosted(op.id, now);
      return None;
    }

    // ---- reversals ----

    /** Deduplicates the account IDs and reads the rows in strictly ascending order. */
    method LockAccountsForOperator(ids: seq<AccountId>) returns (r: Result<seq<AccountId>>)
      ensures r.Ok? <==> forall a | a in ids :: a in accounts
      ensures r.Err? ==> r.error == NoRows
      ensures r.Ok? ==> (forall i, j | 0 <= i < j < |r.value| :: r.value[i] < r.value[j])
      ensures r.Ok? ==> forall a :: a in r.value <==> a in ids
    {
      var unique: set<AccountId> := {};
      for i := 0 to |ids|
        invariant unique == set a | a in ids[..i]
      {
        unique := unique + {ids[i]};
      }
      assert ids[..|ids|] == ids;
      var ordered: seq<AccountId> := [];
      while unique != {}
        invariant forall i, j | 0 <= i < j < |ordered| :: ordered[i] < ordered[j]
        invariant forall a, b | a in ordered && b in unique :: a < b
        invariant forall a :: a in ids <==> a in ordered || a in unique
        invariant forall a | a in ordered :: a in accounts
        decreases unique
      {
        LeastExists(unique);
        var least :| least in unique && forall x | x in unique :: least <= x;
        if least !in accounts {
          return Err(NoRows);
        }
        forall i | 0 <= i < |ordered|
          ensures ordered[i] < least
        {
          assert ordered[i] in ordered;
        }
        ordered := ordered + [least];
        unique := unique - {least};
      }
      return Ok(ordered);
    }

    method ReverseTransactionTx(op: Op, now: Time) returns (r: Option<Error>)
      requires op.Reverse?
      modifies this
      ensures State() == After(old(State()), op, now)
      ensures r == match Apply(old(State()), op, now) { case Rejected(e) => Some(e) case Committed(_, _) => None }
    {
      if !op.valid { return Some(InvalidOperatorAction); }
      if op.target !in txns { return Some(TransactionNotFound); }
      var original := txns[op.target];
      if original.kind == Reversal { return Some(TransactionNotReversible); }
      if original.status == Reversed { return Some(TransactionAlreadyReversed); }
      if original.status != Posted { return Some(TransactionNotPosted); }
      var src := PostingsOf(postings, op.target);
      if |src| < 2 { return Some(TooFewPostings); }

      var accountIds, opposite := [], [];
      for i := 0 to |src|
        invariant |opposite| == i && forall j | 0 <= j < i :: opposite[j] == PostingParams(src[j].ledger, -src[j].amount)
        invariant forall a :: a in accountIds <==> a in CustomersOf(src[..i])
      {
        opposite := opposite + [PostingParams(src[i].ledger, -src[i].amount)];
        assert src[..i + 1] == src[..i] + [src[i]];
        if src[i].ledger.CustomerLedger? {
          accountIds := accountIds + [src[i].ledger.account];
        }
      }
      assert src[..|src|] == src;
      assert Lines(op.id, opposite) == OppositeLines(src, op.id);
      var locked := LockAccountsForOperator(accountIds);
      if locked.Err? { return Some(NoRows); }
      var closed := AnyClosed(locked.value);
      if closed { return Some(AccountClosed); }
      var saved := State();
      r := PostReversal(op, original, src, opposite, now);
      if r.Some? {
        Rollback(saved);
      }
    }

    method AnyClosed(ids: seq<AccountId>) returns (closed: bool)
      requires forall a | a in ids :: a in accounts
      ensures closed <==> exists a | a in ids :: accounts[a].status == Closed
    {
      for i := 0 to |ids|
        invariant forall a | a in ids[..i] :: accounts[a].status != Closed
      {
        assert ids[i] in ids;
        if accounts[ids[i]].status == Closed {
          return true;
        }
      }
      assert ids[..|ids|] == ids;
      return false;
    }

    /** One balance update per customer posting of the original. */
    method ReverseBalances(src: seq<Posting>) returns (r: Option<Error>)
      modifies this`accounts
      ensures match ApplyMoves(old(accounts), OppositeMoves(src), ReversalInsufficientFunds)
              case Err(e) => r == Some(e)
              case Ok(result) => r == None && accounts == result
    {
      for i := 0 to |src|
        invariant ApplyMoves(old(accounts), OppositeMoves(src[..i]), ReversalInsufficientFunds) == Ok(accounts)
      {
        assert src[..i + 1][..i] == src[..i];
        if src[i].ledger.CustomerLedger? {
          var a, delta := src[i].ledger.account, -src[i].amount;
          ghost var before := OppositeMoves(src[..i]);
          assert (before + [Move(a, delta)])[..|before|] == before;
          var updated := AddAccountBalanceInternal(a, delta, ReversalInsufficientFunds);
          if updated.Err? {
            MovesFailEarly(old(accounts), src, i + 1, updated.error);
            return Some(updated.error);
          }
        } else {
          assert OppositeMoves(src[..i + 1]) == OppositeMoves(src[..i]);
        }
      }
      assert src[..|src|] == src;
      return None;
    }

    /** The writing half of `ReverseTransactionTx`. */
    method PostReversal(op: Op, original: Txn, src: seq<Posting>, opposite: seq<PostingParams>, now: Time) returns (r: Option<Error>)
      requires op.Reverse? && op.target in txns && txns[op.target] == original && original.status == Posted
      requires Lines(op.id, opposite) == OppositeLines(src, op.id)
      modifies this
      ensures match Finish(old(State()), ReversalPlan(original, op, src, now), now)
              case Err(e) => r == Some(e)
              case Ok(db) => r == None && State() == db
    {
      var created := CreateBalancedTransaction(
        op.id, NewTxn(Reversal, original.currency, original.amount, op.actor, Some(op.target), now), opposite);
      if created.Err? { return Some(created.error); }
      r := ReverseBalances(src);
      if r.Some? { return; }
      var posted := MarkBankingTransactionPosted(op.id, now);
      var reversed := MarkBankingTransactionReversed(op.target);
    }

    // ---- accounts ----

    method CreateAccountTx(op: Op, now: Time) returns (r: Option<Error>)
      requires op.OpenAccount?
      modifies this
      ensures State() == After(old(State()), op, now)
      ensures r.None? <==> Apply(old(State()), op, now).Committed?
    {
      if op.account in accounts || CustomerLedger(op.account) in ledgers {
        return Some(DuplicateKey);
      }
      accounts := accounts[op.account := Account(op.owner, 0, op.currency, Active)];
      ledgers := ledgers[CustomerLedger(op.account) := op.currency];
      return None;
    }

    method CloseAccountTx(op: Op, now: Time) returns (r: Option<Error>)
      requires op.Close?
      modifies this
      ensures State() == After(old(State()), op, now)
      ensures r == match Apply(old(State()), op, now) { case Rejected(e) => Some(e) case Committed(_, _) => None }
    {
      if op.account !in accounts { return Some(AccountNotFound); }
      var row := accounts[op.account];
      if row.owner != op.username { return Some(AccountNotOwned); }
      if row.status == Closed { return Some(AccountClosed); }
      if row.balance != 0 { return Some(AccountBalanceNotZero); }
      accounts := accounts[op.account := row.(status := Closed)];
      return None;
    }

    method SetAccountStatusTx(op: Op, now: Time) returns (r: Option<Error>)
      requires op.SetStatus?
      modifies this
      ensures State() == After(old(State()), op, now)
      ensures r == match Apply(old(State()), op, now) { case Rejected(e) => Some(e) case Committed(_, _) => None }
    {
      if !op.valid { return Some(InvalidOperatorAction); }
      if op.status != Frozen && op.status != Active { return Some(InvalidTargetStatus); }
      if op.account !in accounts { return Some(AccountNotFound); }
      var row := accounts[op.account];
      if row.status == Closed { return Some(AccountClosed); }
      if row.status == op.status { return Some(if op.status == Frozen then AlreadyFrozen else AlreadyActive); }
      accounts := accounts[op.account := row.(status := op.status)];
      return None;
    }
  }

  // ---- small facts about moves ----

  /** Checking and settling a plan that is not a reversal, in the order of the statements. */
  lemma FinishInTurn(db: Db, plan: Plan, now: Time)
    requires plan.txn.reversalOf == None
    ensures Finish(db, CheckBalanced(plan), now) ==
            if BalanceError(plan.txn.amount, plan.lines).Some? then Err(BalanceError(plan.txn.amount, plan.lines).value)
            else if plan.id in db.txns then Err(DuplicateKey)
            else
              match ApplyMoves(db.accounts, plan.moves, plan.shortfall)
              case Err(e) => Err(e)
              case Ok(rows) => Ok(db.(accounts := rows, txns := db.txns[plan.id := PostedRow(plan, now)], postings := db.postings + plan.lines))
  {}

  lemma TwoMovesInTurn(accounts: map<AccountId, Account>, m: Move, m': Move, e: Error)
    ensures ApplyMoves(accounts, [m, m'], e) ==
      match AddBalance(accounts, m, e)
      case Err(x) => Err(x)
      case Ok(row) =>
        match AddBalance(accounts[m.account := row], m', e)
        case Err(x) => Err(x)
        case Ok(row') => Ok(accounts[m.account := row][m'.account := row'])
  {
    assert [m, m'][..1] == [m];
    OneMoveInTurn(accounts, m, e);
  }

  lemma {:induction false} MovesFailEarly(accounts: map<AccountId, Account>, src: seq<Posting>, i: nat, e: Error)
    requires i <= |src| && ApplyMoves(accounts, OppositeMoves(src[..i]), ReversalInsufficientFunds) == Err(e)
    ensures ApplyMoves(accounts, OppositeMoves(src), ReversalInsufficientFunds) == Err(e)
    decreases |src| - i
  {
    if i == |src| {
      assert src[..i] == src;
    } else {
      assert src[..i + 1][..i] == src[..i];
      ghost var before := OppositeMoves(src[..i]);
      if src[i].ledger.CustomerLedger? {
        assert OppositeMoves(src[..i + 1])[..|before|] == before;
      } else {
        assert OppositeMoves(src[..i + 1]) == before;
      }
      MovesFailEarly(accounts, src, i + 1, e);
    }
  }

  /** A keyed transfer whose key is free runs a plain transfer and then files the receipt under the key. */
  lemma FreshKeyed(db: Db, reserved: map<KeyId, KeyRow>, op: Op, now: Time)
    requires op.KeyedTransfer? && KeyWellFormed(op.key, op.hash)
    requires var k := KeyId(op.req.username, op.key); k !in db.keys || Expired(db.keys, k, now)
    ensures match PrepareAndSettle(db.(keys := reserved), Transfer(op.req), now)
            case Err(e) => Apply(db, op, now) == Rejected(e)
            case Ok(db') =>
              && op.req.id in db'.txns && op.req.from in db'.accounts && op.req.to in db'.accounts
              && var receipt := ReceiptOf(db', op.req, TransferPlan(op.req, now).lines);
              && Apply(db, op, now) == Committed(
                   db'.(keys := db.keys[KeyId(op.req.username, op.key) := KeyRow(op.hash, Some(receipt), now + KEY_LIFETIME)]),
                   Transferred(receipt, false))
  {
    var plan := TransferPlan(op.req, now);
    ApplyMovesKeepsKeys(db.accounts, plan.moves, plan.shortfall);
  }
}
