/** The double-entry invariant, and the proof that every operation keeps it. None of the
    schema's CHECK constraints and triggers is used as a guard: the invariant implies them. */
module LedgerInvariant {
  import opened Common
  import opened Tables
  import opened Operations

  // ---- the invariant ----

  /** The cache agrees with the log, is never negative, and is zero once closed. */
  ghost predicate AccountAgrees(db: Db, a: AccountId)
    requires a in db.accounts
  {
    var row := db.accounts[a];
    && CustomerLedger(a) in db.ledgers
    && db.ledgers[CustomerLedger(a)] == row.currency
    && row.balance == Total(db.postings, OnLedger(CustomerLedger(a)), Amount)
    && 0 <= row.balance <= MAX_BIGINT
    && (row.status == Closed ==> row.balance == 0)
  }

  ghost predicate AccountsAgree(db: Db) { forall a | a in db.accounts :: AccountAgrees(db, a) }

  ghost predicate LedgersNamed(db: Db) {
    forall l | l in db.ledgers ::
      if l.CustomerLedger? then l.account in db.accounts else db.ledgers[l] == l.code
  }

  ghost predicate PostingsRefer(db: Db) {
    forall p | p in db.postings ::
      && p.txn in db.txns && p.ledger in db.ledgers && p.amount != 0
      && db.ledgers[p.ledger] == db.txns[p.txn].currency
  }

  /** What the deferred trigger `validate_banking_transaction_balance` would demand. */
  ghost predicate TxnBalanced(db: Db, t: TxnId)
    requires t in db.txns
  {
    var row := db.txns[t];
    && (row.status == Posted || row.status == Reversed)
    && row.amount > 0
    && row.postedAt == Some(row.createdAt)
    && Total(db.postings, OfTxn(t), Amount) == 0
    && Total(db.postings, OfTxn(t), Magnitude) == 2 * row.amount
    && Total(db.postings, OfTxn(t), One) >= 2
  }

  ghost predicate TxnsBalanced(db: Db) { forall t | t in db.txns :: TxnBalanced(db, t) }

  /** The unique constraint on (transaction, ledger account). */
  ghost predicate OnePerCell(db: Db) { forall t, l :: Total(db.postings, Cell(t, l), One) <= 1 }

  ghost predicate Cancels(ps: seq<Posting>, o: TxnId, r: TxnId) {
    forall l :: Total(ps, Cell(r, l), Amount) == -Total(ps, Cell(o, l), Amount)
  }

  ghost predicate ReversalWellFormed(db: Db, r: TxnId)
    requires r in db.txns
  {
    var row := db.txns[r];
    && (row.kind == Reversal <==> row.reversalOf.Some?)
    && (row.reversalOf.Some? ==>
          var o := row.reversalOf.value;
          && row.status == Posted
          && o in db.txns && db.txns[o].status == Reversed && db.txns[o].kind != Reversal
          && Cancels(db.postings, o, r))
  }

  ghost predicate Reverses(db: Db, r: TxnId, o: TxnId) { r in db.txns && db.txns[r].reversalOf == Some(o) }

  /** A transaction is reversed exactly when one posted reversal refers to it. */
  ghost predicate ReversalsPaired(db: Db) {
    && (forall r | r in db.txns :: ReversalWellFormed(db, r))
    && (forall o, r, r' | Reverses(db, r, o) && Reverses(db, r', o) :: r == r')
    && (forall o | o in db.txns && db.txns[o].status == Reversed :: exists r :: Reverses(db, r, o))
  }

  function CurrencyTotal(ps: seq<Posting>, ledgers: map<LedgerId, string>, c: string): int {
    if ps == [] then 0
    else
      var last := ps[|ps| - 1];
      CurrencyTotal(ps[..|ps| - 1], ledgers, c) +
      (if last.ledger in ledgers && ledgers[last.ledger] == c then last.amount else 0)
  }

  ghost predicate CurrenciesCancel(db: Db) { forall c :: CurrencyTotal(db.postings, db.ledgers, c) == 0 }

  ghost predicate Inv(db: Db) {
    && AccountsAgree(db) && LedgersNamed(db) && PostingsRefer(db) && TxnsBalanced(db)
    && OnePerCell(db) && ReversalsPaired(db) && CurrenciesCancel(db)
  }

  // ---- plans that keep it ----

  function MoveTotal(moves: seq<Move>, a: AccountId): int {
    if moves == [] then 0
    else MoveTotal(moves[..|moves| - 1], a) + (if moves[|moves| - 1].account == a then moves[|moves| - 1].delta else 0)
  }

  /** Every line belongs to the new transaction and to an existing ledger of its currency. */
  ghost predicate LinesRefer(db: Db, plan: Plan) {
    forall p | p in plan.lines ::
      p.txn == plan.id && p.ledger in db.ledgers && p.amount != 0 && db.ledgers[p.ledger] == plan.txn.currency
  }

  ghost predicate LinesBalance(plan: Plan) {
    && Total(plan.lines, OfTxn(plan.id), Amount) == 0
    && Total(plan.lines, OfTxn(plan.id), Magnitude) == 2 * plan.txn.amount
    && |plan.lines| >= 2
    && (forall l :: Total(plan.lines, Cell(plan.id, l), One) <= 1)
  }

  /** The cached balances move exactly as the customer ledgers do, and no closed account moves. */
  ghost predicate MovesMatch(db: Db, plan: Plan) {
    && (forall a :: MoveTotal(plan.moves, a) == Total(plan.lines, OnLedger(CustomerLedger(a)), Amount))
    && (forall m | m in plan.moves :: m.account in db.accounts && db.accounts[m.account].status != Closed)
  }

  ghost predicate ReversalMatches(db: Db, plan: Plan) {
    && (plan.txn.kind == Reversal <==> plan.txn.reversalOf.Some?)
    && (plan.txn.reversalOf.Some? ==>
          var o := plan.txn.reversalOf.value;
          && o in db.txns && db.txns[o].status == Posted && db.txns[o].kind != Reversal
          && forall l :: Total(plan.lines, Cell(plan.id, l), Amount) == -Total(db.postings, Cell(o, l), Amount))
  }

  ghost predicate PlanOk(db: Db, plan: Plan, now: Time) {
    && plan.txn.status == Pending && plan.txn.amount > 0 && plan.txn.createdAt == now
    && LinesRefer(db, plan) && LinesBalance(plan) && MovesMatch(db, plan) && ReversalMatches(db, plan)
  }

  lemma {:induction false} MovesEffect(accounts: map<AccountId, Account>, moves: seq<Move>, shortfall: Error)
    requires forall a | a in accounts :: 0 <= accounts[a].balance <= MAX_BIGINT
    ensures var r := ApplyMoves(accounts, moves, shortfall);
            r.Ok? ==>
              && r.value.Keys == accounts.Keys
              && (forall m | m in moves :: m.account in accounts)
              && forall a | a in accounts ::
                   && r.value[a] == accounts[a].(balance := accounts[a].balance + MoveTotal(moves, a))
                   && 0 <= r.value[a].balance <= MAX_BIGINT
  {
    if moves != [] {
      MovesEffect(accounts, moves[..|moves| - 1], shortfall);
      assert forall m | m in moves :: m in moves[..|moves| - 1] || m == moves[|moves| - 1];
    }
  }

  lemma {:induction false} NotMoved(moves: seq<Move>, a: AccountId)
    requires forall m | m in moves :: m.account != a
    ensures MoveTotal(moves, a) == 0
  {
    if moves != [] {
      NotMoved(moves[..|moves| - 1], a);
    }
  }

  lemma {:induction false} CurrencyOfLines(ps: seq<Posting>, lines: seq<Posting>, ledgers: map<LedgerId, string>, t: TxnId, cur: string, c: string)
    requires forall p | p in lines :: p.txn == t && p.ledger in ledgers && ledgers[p.ledger] == cur
    ensures CurrencyTotal(ps + lines, ledgers, c)
         == CurrencyTotal(ps, ledgers, c) + (if c == cur then Total(lines, OfTxn(t), Amount) else 0)
  {
    if lines == [] {
      assert ps + lines == ps;
    } else {
      assert (ps + lines)[..|ps + lines| - 1] == ps + lines[..|lines| - 1];
      CurrencyOfLines(ps, lines[..|lines| - 1], ledgers, t, cur, c);
    }
  }

  /** The postings of an old transaction are untouched by settling a plan; those of the new one are its lines. */
  lemma SettledTotals(db: Db, plan: Plan, now: Time, s: Selector, m: Measure)
    requires PlanOk(db, plan, now) && PostingsRefer(db) && plan.id !in db.txns
    ensures Total(db.postings + plan.lines, s, m) == Total(db.postings, s, m) + Total(plan.lines, s, m)
    ensures (s.OfTxn? || s.Cell?) && s.t == plan.id ==> Total(db.postings, s, m) == 0
    ensures (s.OfTxn? || s.Cell?) && s.t != plan.id ==> Total(plan.lines, s, m) == 0
  {
    TotalAppend(db.postings, plan.lines, s, m);
    if (s.OfTxn? || s.Cell?) && s.t == plan.id {
      TotalNone(db.postings, s, m);
    }
    if (s.OfTxn? || s.Cell?) && s.t != plan.id {
      TotalNone(plan.lines, s, m);
    }
  }

  lemma SettleKeepsAccounts(db: Db, plan: Plan, now: Time)
    requires Inv(db) && PlanOk(db, plan, now) && Settle(db, plan, now).Ok?
    ensures AccountsAgree(Settle(db, plan, now).value) && LedgersNamed(Settle(db, plan, now).value)
  {
    var db' := Settle(db, plan, now).value;
    MovesEffect(db.accounts, plan.moves, plan.shortfall);
    forall a | a in db'.accounts
      ensures AccountAgrees(db', a)
    {
      assert AccountAgrees(db, a);
      TotalAppend(db.postings, plan.lines, OnLedger(CustomerLedger(a)), Amount);
      if db.accounts[a].status == Closed {
        NotMoved(plan.moves, a);
      }
    }
  }

  lemma SettleKeepsTxns(db: Db, plan: Plan, now: Time)
    requires Inv(db) && PlanOk(db, plan, now) && Settle(db, plan, now).Ok?
    ensures PostingsRefer(Settle(db, plan, now).value) && TxnsBalanced(Settle(db, plan, now).value)
  {
    var db' := Settle(db, plan, now).value;
    forall t | t in db'.txns
      ensures TxnBalanced(db', t)
    {
      SettledTotals(db, plan, now, OfTxn(t), Amount);
      SettledTotals(db, plan, now, OfTxn(t), Magnitude);
      SettledTotals(db, plan, now, OfTxn(t), One);
      if t == plan.id {
        CountOfTxnIsLength(plan.lines, t);
      } else {
        assert TxnBalanced(db, t);
      }
    }
  }

  lemma SettleKeepsCells(db: Db, plan: Plan, now: Time)
    requires Inv(db) && PlanOk(db, plan, now) && Settle(db, plan, now).Ok?
    ensures OnePerCell(Settle(db, plan, now).value) && CurrenciesCancel(Settle(db, plan, now).value)
  {
    var db' := Settle(db, plan, now).value;
    forall t, l
      ensures Total(db'.postings, Cell(t, l), One) <= 1
    {
      SettledTotals(db, plan, now, Cell(t, l), One);
    }
    forall c
      ensures CurrencyTotal(db'.postings, db'.ledgers, c) == 0
    {
      CurrencyOfLines(db.postings, plan.lines, db.ledgers, plan.id, plan.txn.currency, c);
    }
  }

  lemma SettleKeepsReversals(db: Db, plan: Plan, now: Time)
    requires Inv(db) && PlanOk(db, plan, now) && Settle(db, plan, now).Ok?
    ensures ReversalsPaired(Settle(db, plan, now).value)
  {
    var db' := Settle(db, plan, now).value;
    SettleKeepsWellFormed(db, plan, now);
    forall o, r, r' | Reverses(db', r, o) && Reverses(db', r', o)
      ensures r == r'
    {
      if r != plan.id && r' != plan.id {
        assert Reverses(db, r, o) && Reverses(db, r', o);
      }  // otherwise the plan reverses o, so o was still posted and no older reversal can refer to it
    }
    forall o | o in db'.txns && db'.txns[o].status == Reversed
      ensures exists r :: Reverses(db', r, o)
    {
      if plan.txn.reversalOf == Some(o) {
        assert Reverses(db', plan.id, o);
      } else {
        var r :| Reverses(db, r, o);
        assert Reverses(db', r, o);
      }
    }
  }

  lemma SettleKeepsWellFormed(db: Db, plan: Plan, now: Time)
    requires Inv(db) && PlanOk(db, plan, now) && Settle(db, plan, now).Ok?
    ensures forall r | r in Settle(db, plan, now).value.txns :: ReversalWellFormed(Settle(db, plan, now).value, r)
  {
    var db' := Settle(db, plan, now).value;
    forall r | r in db'.txns
      ensures ReversalWellFormed(db', r)
    {
      if r in db.txns {
        assert ReversalWellFormed(db, r);
      }
      if db'.txns[r].reversalOf.Some? {
        var o := db'.txns[r].reversalOf.value;
        assert o in db.txns;
        forall l
          ensures Total(db'.postings, Cell(r, l), Amount) == -Total(db'.postings, Cell(o, l), Amount)
        {
          SettledTotals(db, plan, now, Cell(r, l), Amount);
          SettledTotals(db, plan, now, Cell(o, l), Amount);
        }
      }
    }
  }

  lemma SettleKeepsInv(db: Db, plan: Plan, now: Time)
    requires Inv(db) && PlanOk(db, plan, now) && Settle(db, plan, now).Ok?
    ensures Inv(Settle(db, plan, now).value)
  {
    SettleKeepsAccounts(db, plan, now);
    SettleKeepsTxns(db, plan, now);
    SettleKeepsCells(db, plan, now);
    SettleKeepsReversals(db, plan, now);
  }
}
