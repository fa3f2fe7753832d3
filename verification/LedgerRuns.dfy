/** What every committed operation does to the ledger, and what holds over whole runs. */
module LedgerRuns {
  import opened Common
  import opened Tables
  import opened Operations
  import opened LedgerInvariant

  // ---- every prepared plan is balanced ----

  lemma PreparedTransferOk(db: Db, r: TransferRequest, now: Time)
    requires Inv(db) && PrepareTransfer(db, r, now).Ok?
    ensures PlanOk(db, PrepareTransfer(db, r, now).value, now)
  {
    assert AccountAgrees(db, r.from) && AccountAgrees(db, r.to);
    var plan := PrepareTransfer(db, r, now).value;
    TwoLines(plan.lines);
    forall a
      ensures MoveTotal(plan.moves, a) == Total(plan.lines, OnLedger(CustomerLedger(a)), Amount)
    {
      TwoMoves(plan.moves[0], plan.moves[1], a);
    }
  }

  lemma PreparedSettlementOk(db: Db, id: TxnId, a: AccountId, amount: int, kind: TxnKind, actor: string, now: Time)
    requires Inv(db) && kind != Reversal && PrepareSettlement(db, id, a, amount, kind, actor, now).Ok?
    ensures PlanOk(db, PrepareSettlement(db, id, a, amount, kind, actor, now).value, now)
  {
    assert AccountAgrees(db, a);
    var plan := PrepareSettlement(db, id, a, amount, kind, actor, now).value;
    SettlementBalances(id, a, db.accounts[a].currency, amount, kind, actor, now);
  }

  /** The two lines cancel, and the one move is the line on the customer's ledger. */
  lemma SettlementBalances(id: TxnId, a: AccountId, currency: string, amount: int, kind: TxnKind, actor: string, now: Time)
    requires amount > 0
    ensures var plan := SettlementPlan(id, a, currency, amount, kind, actor, now);
            LinesBalance(plan) && forall b :: MoveTotal(plan.moves, b) == Total(plan.lines, OnLedger(CustomerLedger(b)), Amount)
  {
    var plan := SettlementPlan(id, a, currency, amount, kind, actor, now);
    TwoLines(plan.lines);
    OneMoveMatches(plan.moves[0]);
  }

  lemma OneMoveMatches(m: Move)
    ensures forall a :: MoveTotal([m], a) == if m.account == a then m.delta else 0
  {
    assert [m][..0] == [];
  }

  lemma TwoLines(lines: seq<Posting>)
    requires |lines| == 2
    ensures forall s, m :: Total(lines, s, m) ==
              (if Selects(s, lines[0]) then Weight(m, lines[0]) else 0) + (if Selects(s, lines[1]) then Weight(m, lines[1]) else 0)
  {
    forall s, m
      ensures Total(lines, s, m) ==
              (if Selects(s, lines[0]) then Weight(m, lines[0]) else 0) + (if Selects(s, lines[1]) then Weight(m, lines[1]) else 0)
    {
      assert lines[..|lines| - 1] == [lines[0]] && [lines[0]][..0] == [];
      assert Total([lines[0]], s, m) == if Selects(s, lines[0]) then Weight(m, lines[0]) else 0;
    }
  }

  lemma TwoMoves(m: Move, m': Move, a: AccountId)
    ensures MoveTotal([m, m'], a) == (if m.account == a then m.delta else 0) + (if m'.account == a then m'.delta else 0)
  {
    assert [m, m'][..1] == [m] && [m][..0] == [];
    assert MoveTotal([m], a) == if m.account == a then m.delta else 0;
  }

  lemma {:induction false} OppositeTotals(src: seq<Posting>, id: TxnId, t: TxnId, l: LedgerId)
    requires forall p | p in src :: p.txn == t
    ensures Total(OppositeLines(src, id), OfTxn(id), Amount) == -Total(src, OfTxn(t), Amount)
    ensures Total(OppositeLines(src, id), OfTxn(id), Magnitude) == Total(src, OfTxn(t), Magnitude)
    ensures Total(OppositeLines(src, id), Cell(id, l), Amount) == -Total(src, Cell(t, l), Amount)
    ensures Total(OppositeLines(src, id), Cell(id, l), One) == Total(src, Cell(t, l), One)
    ensures Total(OppositeLines(src, id), OnLedger(l), Amount) == -Total(src, Cell(t, l), Amount)
  {
    if src != [] {
      assert OppositeLines(src, id)[..|src| - 1] == OppositeLines(src[..|src| - 1], id);
      OppositeTotals(src[..|src| - 1], id, t, l);
    }
  }

  lemma {:induction false} OppositeMovesMatch(src: seq<Posting>, t: TxnId, a: AccountId)
    requires forall p | p in src :: p.txn == t
    ensures MoveTotal(OppositeMoves(src), a) == -Total(src, Cell(t, CustomerLedger(a)), Amount)
    ensures forall m | m in OppositeMoves(src) :: m.account in CustomersOf(src)
  {
    if src != [] {
      var last := src[|src| - 1];
      OppositeMovesMatch(src[..|src| - 1], t, a);
      assert CustomersOf(src[..|src| - 1]) <= CustomersOf(src);
      if last.ledger.CustomerLedger? {
        assert OppositeMoves(src)[..|OppositeMoves(src)| - 1] == OppositeMoves(src[..|src| - 1]);
      } else {
        assert OppositeMoves(src) == OppositeMoves(src[..|src| - 1]);
      }
    }
  }

  /** The original's postings, seen through the log: one per cell, balanced, and on known ledgers. */
  lemma SourceLines(db: Db, t: TxnId)
    requires Inv(db) && t in db.txns
    ensures var src := PostingsOf(db.postings, t);
      && (forall p | p in src :: p.txn == t && p.ledger in db.ledgers && p.amount != 0 && db.ledgers[p.ledger] == db.txns[t].currency)
      && Total(src, OfTxn(t), Amount) == 0 && Total(src, OfTxn(t), Magnitude) == 2 * db.txns[t].amount
      && (forall l :: Total(src, Cell(t, l), One) <= 1)
      && (forall l :: Total(src, Cell(t, l), Amount) == Total(db.postings, Cell(t, l), Amount))
  {
    assert TxnBalanced(db, t);
    PostingsOfTotals(db.postings, t, OfTxn(t), Amount);
    PostingsOfTotals(db.postings, t, OfTxn(t), Magnitude);
    forall l
      ensures Total(PostingsOf(db.postings, t), Cell(t, l), One) <= 1
      ensures Total(PostingsOf(db.postings, t), Cell(t, l), Amount) == Total(db.postings, Cell(t, l), Amount)
    {
      PostingsOfTotals(db.postings, t, Cell(t, l), One);
      PostingsOfTotals(db.postings, t, Cell(t, l), Amount);
    }
  }

  lemma OppositeLinesOk(src: seq<Posting>, id: TxnId, t: TxnId)
    requires forall p | p in src :: p.txn == t
    ensures var lines := OppositeLines(src, id);
      && (forall p | p in lines :: exists q | q in src :: p == Posting(id, q.ledger, -q.amount))
      && Total(lines, OfTxn(id), Amount) == -Total(src, OfTxn(t), Amount)
      && Total(lines, OfTxn(id), Magnitude) == Total(src, OfTxn(t), Magnitude)
      && (forall l :: Total(lines, Cell(id, l), One) == Total(src, Cell(t, l), One))
      && (forall l :: Total(lines, Cell(id, l), Amount) == -Total(src, Cell(t, l), Amount))
      && (forall a :: MoveTotal(OppositeMoves(src), a) == Total(lines, OnLedger(CustomerLedger(a)), Amount))
  {
    var lines := OppositeLines(src, id);
    OppositeTotals(src, id, t, SettlementLedger(""));
    forall l
      ensures Total(lines, Cell(id, l), One) == Total(src, Cell(t, l), One)
      ensures Total(lines, Cell(id, l), Amount) == -Total(src, Cell(t, l), Amount)
    {
      OppositeTotals(src, id, t, l);
    }
    forall a
      ensures MoveTotal(OppositeMoves(src), a) == Total(lines, OnLedger(CustomerLedger(a)), Amount)
    {
      OppositeMovesMatch(src, t, a);
      OppositeTotals(src, id, t, CustomerLedger(a));
    }
    forall p | p in lines
      ensures exists q | q in src :: p == Posting(id, q.ledger, -q.amount)
    {
      var i :| 0 <= i < |src| && p == lines[i];
      assert src[i] in src;
    }
  }

  /** What `PrepareReversal` has checked when it succeeds. */
  ghost predicate ReversalChecked(db: Db, op: Op, src: seq<Posting>, plan: Plan, now: Time)
    requires op.Reverse?
  {
    && op.target in db.txns && db.txns[op.target].status == Posted && db.txns[op.target].kind != Reversal
    && |src| >= 2
    && (forall a | a in CustomersOf(src) :: a in db.accounts && db.accounts[a].status != Closed)
    && plan == Plan(op.id, NewTxn(Reversal, db.txns[op.target].currency, db.txns[op.target].amount, op.actor, Some(op.target), now),
                    OppositeLines(src, op.id), OppositeMoves(src), ReversalInsufficientFunds)
  }

  lemma ReversalIsChecked(db: Db, op: Op, plan: Plan, now: Time)
    requires op.Reverse? && PrepareReversal(db, op, now) == Ok(plan)
    ensures ReversalChecked(db, op, PostingsOf(db.postings, op.target), plan, now)
  {}

  lemma PreparedReversalOk(db: Db, op: Op, src: seq<Posting>, plan: Plan, now: Time)
    requires Inv(db) && op.Reverse? && src == PostingsOf(db.postings, op.target) && ReversalChecked(db, op, src, plan, now)
    ensures PlanOk(db, plan, now)
  {
    assert TxnBalanced(db, op.target);
    SourceLines(db, op.target);
    OppositeLinesOk(src, op.id, op.target);
    OppositeMovesMatch(src, op.target, 0);
  }

  lemma PreparedOk(db: Db, op: Op, now: Time)
    requires Inv(db) && IsMoney(op) && Prepare(db, op, now).Ok?
    ensures PlanOk(db, Prepare(db, op, now).value, now)
  {
    match op
    case Transfer(r) => PreparedTransferOk(db, r, now);
    case KeyedTransfer(r, _, _) => PreparedTransferOk(db, r, now);
    case DepositTo(id, a, amount, actor) => PreparedSettlementOk(db, id, a, amount, Deposit, actor, now);
    case WithdrawFrom(id, a, amount, actor) => PreparedSettlementOk(db, id, a, amount, Withdrawal, actor, now);
    case Reverse(_, _, _, _) =>
      var plan := PrepareReversal(db, op, now).value;
      ReversalIsChecked(db, op, plan, now);
      PreparedReversalOk(db, op, PostingsOf(db.postings, op.target), plan, now);
  }

  // ---- every operation keeps the invariant ----

  lemma {:induction false} NewLedgerIsEmpty(ps: seq<Posting>, ledgers: map<LedgerId, string>, l: LedgerId, cur: string, c: string)
    requires l !in ledgers && forall p | p in ps :: p.ledger in ledgers
    ensures CurrencyTotal(ps, ledgers[l := cur], c) == CurrencyTotal(ps, ledgers, c)
  {
    if ps != [] {
      NewLedgerIsEmpty(ps[..|ps| - 1], ledgers, l, cur, c);
    }
  }

  lemma OpenKeepsInv(db: Db, op: Op, now: Time)
    requires Inv(db) && op.OpenAccount?
    ensures Inv(After(db, op, now))
  {
    var db' := After(db, op, now);
    var l := CustomerLedger(op.account);
    if Apply(db, op, now).Committed? {
      TotalNone(db.postings, OnLedger(l), Amount);
      forall a | a in db'.accounts
        ensures AccountAgrees(db', a)
      {
        if a != op.account { assert AccountAgrees(db, a); }
      }
      forall c
        ensures CurrencyTotal(db'.postings, db'.ledgers, c) == 0
      {
        NewLedgerIsEmpty(db.postings, db.ledgers, l, op.currency, c);
      }
      LedgerTablesKeepInv(db, db');
    }
  }

  /** Nothing about transactions depends on the account rows or on idempotency keys. */
  lemma LedgerTablesKeepInv(db: Db, db': Db)
    requires Inv(db) && db'.txns == db.txns && db'.postings == db.postings
    ensures TxnsBalanced(db') && OnePerCell(db') && ReversalsPaired(db')
  {
    forall t | t in db'.txns
      ensures TxnBalanced(db', t) && ReversalWellFormed(db', t)
    {
      assert TxnBalanced(db, t) && ReversalWellFormed(db, t);
    }
    forall o, r | Reverses(db, r, o)
      ensures Reverses(db', r, o)
    {}
    forall o, r, r' | Reverses(db', r, o) && Reverses(db', r', o)
      ensures r == r'
    {
      assert Reverses(db, r, o) && Reverses(db, r', o);
    }
  }

  lemma AdminKeepsInv(db: Db, op: Op, now: Time)
    requires Inv(db) && (op.Close? || op.SetStatus? || op.PurgeKeys?)
    ensures Inv(After(db, op, now))
  {
    var db' := After(db, op, now);
    LedgerTablesKeepInv(db, db');
    forall a | a in db'.accounts
      ensures AccountAgrees(db', a)
    {
      assert AccountAgrees(db, a);
    }
  }

  lemma KeysKeepInv(db: Db, keys: map<KeyId, KeyRow>)
    requires Inv(db)
    ensures Inv(db.(keys := keys))
  {
    var db' := db.(keys := keys);
    LedgerTablesKeepInv(db, db');
    forall a | a in db'.accounts
      ensures AccountAgrees(db', a)
    {
      assert AccountAgrees(db, a);
    }
  }

  /** Every operation, committed or rolled back, keeps the ledger invariant. */
  lemma ApplyKeepsInv(db: Db, op: Op, now: Time)
    requires Inv(db)
    ensures Inv(After(db, op, now))
  {
    if op.OpenAccount? {
      OpenKeepsInv(db, op, now);
    } else if !IsMoney(op) {
      AdminKeepsInv(db, op, now);
    } else if Prepare(db, op, now).Ok? {
      var plan := Prepare(db, op, now).value;
      PreparedOk(db, op, now);
      if Settle(db, plan, now).Ok? {
        SettleKeepsInv(db, plan, now);
        KeysKeepInv(Settle(db, plan, now).value, After(db, op, now).keys);
      }
    }
  }

  // ---- what one operation may change ----

  /** Postings are append-only, rows are never deleted, closed accounts never change again, and a
      transaction's only later change is from posted to reversed. */
  ghost predicate Persists(db: Db, db': Db) {
    && db.postings <= db'.postings
    && (forall l | l in db.ledgers :: l in db'.ledgers && db'.ledgers[l] == db.ledgers[l])
    && (forall a | a in db.accounts ::
          && a in db'.accounts && db'.accounts[a].owner == db.accounts[a].owner
          && db'.accounts[a].currency == db.accounts[a].currency
          && (db.accounts[a].status == Closed ==> db'.accounts[a] == db.accounts[a]))
    && (forall t | t in db.txns ::
          && t in db'.txns
          && (|| db'.txns[t] == db.txns[t]
              || (db.txns[t].status == Posted && db'.txns[t] == db.txns[t].(status := Reversed))))
  }

  lemma PersistsTransitive(db: Db, db': Db, db'': Db)
    requires Persists(db, db') && Persists(db', db'')
    ensures Persists(db, db'')
  {
    assert db.postings <= db'.postings <= db''.postings;
  }

  /** Only these operations may lower a balance; a frozen account is lowered by a reversal alone. */
  ghost predicate MayDebit(db: Db, op: Op, a: AccountId)
    requires a in db.accounts
  {
    || op.Reverse?
    || (&& db.accounts[a].status == Active
        && (|| ((op.Transfer? || op.KeyedTransfer?) && op.req.from == a && op.req.username == db.accounts[a].owner)
            || (op.WithdrawFrom? && op.account == a)))
  }

  ghost predicate DebitsAllowed(db: Db, db': Db, op: Op) {
    forall a | a in db.accounts && a in db'.accounts && db'.accounts[a].balance < db.accounts[a].balance :: MayDebit(db, op, a)
  }

  ghost predicate NewRowsPosted(db: Db, db': Db) {
    forall t | t in db'.txns && t !in db.txns :: db'.txns[t].status == Posted
  }

  lemma SettlePersists(db: Db, plan: Plan, now: Time)
    requires Inv(db) && PlanOk(db, plan, now) && Settle(db, plan, now).Ok?
    ensures Persists(db, Settle(db, plan, now).value) && NewRowsPosted(db, Settle(db, plan, now).value)
  {
    SettledBalances(db, plan, now);
    forall a | a in db.accounts && db.accounts[a].status == Closed
      ensures MoveTotal(plan.moves, a) == 0
    {
      NotMoved(plan.moves, a);
    }
  }

  lemma SettledBalances(db: Db, plan: Plan, now: Time)
    requires AccountsAgree(db) && Settle(db, plan, now).Ok?
    ensures var db' := Settle(db, plan, now).value;
            db'.accounts == map a | a in db.accounts ::
              db.accounts[a].(balance := db.accounts[a].balance + MoveTotal(plan.moves, a))
  {
    BalancesInRange(db);
    SettledAccounts(db, plan, now);
    MovesEffect(db.accounts, plan.moves, plan.shortfall);
  }

  lemma SettledAccounts(db: Db, plan: Plan, now: Time)
    requires Settle(db, plan, now).Ok?
    ensures ApplyMoves(db.accounts, plan.moves, plan.shortfall) == Ok(Settle(db, plan, now).value.accounts)
  {}

  lemma BalancesInRange(db: Db)
    requires AccountsAgree(db)
    ensures forall a | a in db.accounts :: 0 <= db.accounts[a].balance <= MAX_BIGINT
  {
    assert forall a | a in db.accounts :: AccountAgrees(db, a);
  }

  lemma SettleDebits(db: Db, op: Op, plan: Plan, now: Time)
    requires Inv(db) && IsMoney(op) && !op.Reverse? && Prepare(db, op, now) == Ok(plan) && Settle(db, plan, now).Ok?
    ensures DebitsAllowed(db, Settle(db, plan, now).value, op)
  {
    SettledBalances(db, plan, now);
    forall a | a in db.accounts && MoveTotal(plan.moves, a) < 0
      ensures MayDebit(db, op, a)
    {
      MovesMayDebit(db, op, plan, now, a);
    }
  }

  lemma MovesMayDebit(db: Db, op: Op, plan: Plan, now: Time, a: AccountId)
    requires IsMoney(op) && !op.Reverse? && Prepare(db, op, now) == Ok(plan) && a in db.accounts && MoveTotal(plan.moves, a) < 0
    ensures MayDebit(db, op, a)
  {
    assert db.accounts[a].status.Active? || db.accounts[a].status.Frozen? || db.accounts[a].status.Closed?;
    if op.Transfer? || op.KeyedTransfer? {
      TwoMoves(plan.moves[0], plan.moves[1], a);
    } else {
      var m := plan.moves[0];
      assert plan.moves == [m] && MoveTotal([m], a) == (if m.account == a then m.delta else 0);
    }
  }

  /** Whole-state summary of one operation, whichever it is and whether or not it commits. */
  lemma ApplyPersists(db: Db, op: Op, now: Time)
    requires Inv(db)
    ensures Persists(db, After(db, op, now))
    ensures NewRowsPosted(db, After(db, op, now))
    ensures DebitsAllowed(db, After(db, op, now), op)
  {
    if IsMoney(op) {
      MoneyPersists(db, op, now);
    } else {
      AdminPersists(db, op, now);
    }
  }

  lemma AdminPersists(db: Db, op: Op, now: Time)
    requires !IsMoney(op)
    ensures Persists(db, After(db, op, now))
    ensures NewRowsPosted(db, After(db, op, now))
    ensures DebitsAllowed(db, After(db, op, now), op)
  {}

  lemma MoneyPersists(db: Db, op: Op, now: Time)
    requires Inv(db) && IsMoney(op)
    ensures Persists(db, After(db, op, now))
    ensures NewRowsPosted(db, After(db, op, now))
    ensures DebitsAllowed(db, After(db, op, now), op)
  {
    var settled := PrepareAndSettle(db, op, now);
    if settled.Ok? {
      var plan := Prepare(db, op, now).value;
      PreparedOk(db, op, now);
      SettlePersists(db, plan, now);
      if !op.Reverse? {
        SettleDebits(db, op, plan, now);
      }
    }
    OnlySettles(db, op, now);
  }

  /** Apart from idempotency keys, a money operation either settles its plan or changes nothing. */
  lemma OnlySettles(db: Db, op: Op, now: Time)
    requires IsMoney(op)
    ensures var db' := After(db, op, now);
      || db' == db
      || (PrepareAndSettle(db, op, now).Ok? && db' == PrepareAndSettle(db, op, now).value.(keys := db'.keys))
  {}

  // ---- runs ----

  /** Any sequence of operations, with start times in any order. */
  function Run(db: Db, steps: seq<Step>): Db {
    if steps == [] then db
    else
      var last := steps[|steps| - 1];
      After(Run(db, steps[..|steps| - 1]), last.op, last.now)
  }

  /** The state the migrations leave: the two settlement ledgers and nothing else. */
  const INITIAL := Db(map[], map[SettlementLedger("USD") := "USD", SettlementLedger("EUR") := "EUR"], map[], [], map[])

  lemma {:induction false} RunKeepsInv(db: Db, steps: seq<Step>)
    requires Inv(db)
    ensures Inv(Run(db, steps))
  {
    if steps != [] {
      var last := steps[|steps| - 1];
      RunKeepsInv(db, steps[..|steps| - 1]);
      ApplyKeepsInv(Run(db, steps[..|steps| - 1]), last.op, last.now);
    }
  }

  /** Over any run: closed accounts stay closed at zero, and a status only moves from posted to reversed. */
  lemma {:induction false} RunPersists(db: Db, steps: seq<Step>)
    requires Inv(db)
    ensures Persists(db, Run(db, steps))
  {
    if steps != [] {
      var last := steps[|steps| - 1];
      var before := Run(db, steps[..|steps| - 1]);
      RunPersists(db, steps[..|steps| - 1]);
      RunKeepsInv(db, steps[..|steps| - 1]);
      ApplyPersists(before, last.op, last.now);
      PersistsTransitive(db, before, Run(db, steps));
    }
  }

  // ---- conservation of money, per currency ----

  ghost function SumMap(m: map<AccountId, int>): int
    decreases |m|
  {
    if exists a :: a in m then var a :| a in m; m[a] + SumMap(m - {a}) else 0
  }

  lemma {:induction false} SumMapRemove(m: map<AccountId, int>, a: AccountId)
    requires a in m
    ensures SumMap(m) == m[a] + SumMap(m - {a})
    decreases |m|
  {
    var b :| b in m && SumMap(m) == m[b] + SumMap(m - {b});
    if a != b {
      SumMapRemove(m - {b}, a);
      SumMapRemove(m - {a}, b);
      assert m - {a} - {b} == m - {b} - {a};
    }
  }

  ghost function CustomerBalances(db: Db, c: string): map<AccountId, int> {
    map a | a in db.accounts && db.accounts[a].currency == c :: db.accounts[a].balance
  }

  ghost function LedgerTotals(ps: seq<Posting>, ids: set<AccountId>): map<AccountId, int> {
    map a | a in ids :: Total(ps, OnLedger(CustomerLedger(a)), Amount)
  }

  lemma {:induction false} SumMapZero(m: map<AccountId, int>)
    requires forall a | a in m :: m[a] == 0
    ensures SumMap(m) == 0
    decreases |m|
  {
    if a :| a in m {
      SumMapRemove(m, a);
      SumMapZero(m - {a});
    }
  }

  /** Summing each ledger of a currency separately is summing the currency once. */
  lemma {:induction false} SumByLedger(ps: seq<Posting>, ledgers: map<LedgerId, string>, ids: set<AccountId>, c: string)
    requires forall p | p in ps :: p.ledger in ledgers
    requires forall l | l in ledgers && ledgers[l] == c :: if l.CustomerLedger? then l.account in ids else l == SettlementLedger(c)
    requires forall a | a in ids :: CustomerLedger(a) in ledgers && ledgers[CustomerLedger(a)] == c
    requires SettlementLedger(c) in ledgers ==> ledgers[SettlementLedger(c)] == c
    ensures SumMap(LedgerTotals(ps, ids)) + Total(ps, OnLedger(SettlementLedger(c)), Amount) == CurrencyTotal(ps, ledgers, c)
  {
    if ps == [] {
      SumMapZero(LedgerTotals(ps, ids));
    } else {
      var last, before := ps[|ps| - 1], ps[..|ps| - 1];
      SumByLedger(before, ledgers, ids, c);
      var m, m' := LedgerTotals(before, ids), LedgerTotals(ps, ids);
      if last.ledger.CustomerLedger? && last.ledger.account in ids {
        var a := last.ledger.account;
        SumMapRemove(m, a);
        SumMapRemove(m', a);
        assert m - {a} == m' - {a};
      } else {
        assert m == m';
      }
    }
  }

  /** Customer balances and the settlement ledger of a currency always sum to zero. */
  lemma MoneyIsConserved(db: Db, c: string)
    requires Inv(db)
    ensures SumMap(CustomerBalances(db, c)) + Total(db.postings, OnLedger(SettlementLedger(c)), Amount) == 0
  {
    var ids := set a | a in db.accounts && db.accounts[a].currency == c;
    forall a | a in db.accounts
      ensures AccountAgrees(db, a)
    {}
    assert CustomerBalances(db, c) == LedgerTotals(db.postings, ids);
    SumByLedger(db.postings, db.ledgers, ids, c);
  }

  /** Every state reachable from the migrated database satisfies the whole ledger invariant. */
  lemma ReachableIsSafe(steps: seq<Step>, c: string)
    ensures var db := Run(INITIAL, steps);
      && Inv(db)
      && SumMap(CustomerBalances(db, c)) + Total(db.postings, OnLedger(SettlementLedger(c)), Amount) == 0
  {
    assert Inv(INITIAL);
    RunKeepsInv(INITIAL, steps);
    MoneyIsConserved(Run(INITIAL, steps), c);
  }
}
