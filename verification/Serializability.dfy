/** Every commit of the interleaved system is one atomic operation on the state it finds: the locks
    keep whatever a transaction has read valid until it commits. */
module Serializability {
  import opened Common
  import opened Tables
  import opened Operations
  import opened LedgerInvariant
  import opened LedgerRuns
  import opened Interleaving

  // ---- what an open transaction knows about the committed state ----

  /** Rows read under lock are still current. */
  ghost predicate RowsCurrent(db: Db, w: Work) {
    forall a | a in w.rows :: AccountLock(a) in w.held && a in db.accounts && db.accounts[a] == w.rows[a]
  }

  function Seen(db: Db, w: Work): Db { db.(accounts := w.rows) }

  ghost predicate GoodKey(db: Db, w: Work)
    requires w.op.KeyedTransfer?
  {
    var k := KeyOf(w.op);
    && w.rows == map[] && w.plan.None?
    && match w.stage
       case KeyInsert =>
         || w.delta == NOTHING
         || (w.delta == NOTHING.(dropped := {k}) && KeyLock(k) in w.held && Expired(db.keys, k, w.now))
       case _ => w.delta == NOTHING
  }

  /** The key is reserved: it was free or expired, and the lock keeps it so. */
  ghost predicate KeyReserved(db: Db, w: Work) {
    if w.op.KeyedTransfer? then
      var k := KeyOf(w.op);
      && KeyLock(k) in w.held && (k in db.keys ==> Expired(db.keys, k, w.now))
      && w.delta.dropped == (if k in db.keys then {k} else {})
    else w.delta.dropped == {}
  }

  ghost predicate KeyPending(w: Work) {
    w.delta.keys == if w.op.KeyedTransfer? then map[KeyOf(w.op) := KeyRow(w.op.hash, None, w.now + KEY_LIFETIME)] else map[]
  }

  ghost predicate OriginalHeld(db: Db, w: Work)
    requires w.op.Reverse?
  {
    && TxnLock(w.op.target) in w.held && w.op.target in db.txns && w.original == Some(db.txns[w.op.target])
    && CheckReversible(db.txns[w.op.target]).None?
  }

  /** The accounts to lock are the ones the operation touches. */
  ghost predicate IdsRight(db: Db, w: Work) {
    match w.op
    case Transfer(r) => r.from != r.to && forall a :: a in w.ids <==> a == r.from || a == r.to
    case KeyedTransfer(r, _, _) => r.from != r.to && forall a :: a in w.ids <==> a == r.from || a == r.to
    case Reverse(_, t, _, _) =>
      && OriginalHeld(db, w) && w.src == PostingsOf(db.postings, t) && |w.src| >= 2
      && forall a :: a in w.ids <==> a in CustomersOf(w.src)
    case DepositTo(_, a, amount, _) => w.ids == [a] && amount > 0
    case WithdrawFrom(_, a, amount, _) => w.ids == [a] && amount > 0
    case Close(a, _) => w.ids == [a]
    case SetStatus(a, _, _) => w.ids == [a]
    case _ => false
  }

  ghost predicate Untouched(d: Delta) { d.accounts == map[] && d.ledgers == map[] && d.txns == map[] && d.posts == [] }

  ghost predicate GoodRead(db: Db, w: Work) {
    && Untouched(w.delta) && KeyReserved(db, w) && KeyPending(w) && w.plan.None?
    && (w.stage.ListPostings? && w.op.Reverse? ==> OriginalHeld(db, w))
    && (w.stage.Lock? || w.stage.Decide? ==> IdsRight(db, w))
    && (w.stage.Lock? && w.stage.i <= |w.ids| ==> forall a :: a in w.rows <==> a in w.ids[..w.stage.i])
    && (w.stage.Decide? ==> forall a :: a in w.rows <==> a in w.ids)
    && (w.stage.Resolve? || w.stage.ReadOriginal? || w.stage.ListPostings? ==> w.rows == map[])
  }

  /** The plan is the one the operation would make on the state as it is now. */
  ghost predicate Planned(db: Db, w: Work)
    requires IsMoney(w.op) && w.plan.Some?
  {
    && Prepare(Seen(db, w), w.op, w.now) == Ok(w.plan.value)
    && (w.op.Reverse? ==> TxnLock(w.op.target) in w.held)
  }

  /** The first `j` balance updates have been made, on the rows as locked. */
  ghost predicate Moved(w: Work, j: nat)
    requires w.plan.Some? && j <= |w.plan.value.moves|
  {
    && ApplyMoves(w.rows, w.plan.value.moves[..j], w.plan.value.shortfall) == Ok(w.rows + w.delta.accounts)
    && (forall a :: a in w.delta.accounts <==> exists i :: 0 <= i < j && w.plan.value.moves[i].account == a)
  }

  function FinalTxns(db: Db, w: Work): map<TxnId, Txn>
    requires w.plan.Some?
  {
    var plan := w.plan.value;
    var posted := map[plan.id := PostedRow(plan, w.now)];
    match plan.txn.reversalOf
    case None => posted
    case Some(t) => if t in db.txns then posted[t := db.txns[t].(status := Reversed)] else posted
  }

  /** How far the writes have got. */
  ghost predicate Progress(db: Db, w: Work)
    requires w.plan.Some?
  {
    var plan, d := w.plan.value, w.delta;
    match w.stage
    case Insert => Untouched(d)
    case Post(i) => i <= |plan.lines| && d.accounts == map[] && d.txns == map[plan.id := plan.txn] && d.posts == plan.lines[..i]
    case Adjust(i) => i <= |plan.moves| && d.txns == map[plan.id := plan.txn] && d.posts == plan.lines && Moved(w, i)
    case MarkPosted => d.txns == map[plan.id := plan.txn] && d.posts == plan.lines && Moved(w, |plan.moves|)
    case MarkReversed => d.txns == map[plan.id := PostedRow(plan, w.now)] && d.posts == plan.lines && Moved(w, |plan.moves|)
    case _ => Written(db, w)
  }

  /** All rows but the key are written. */
  ghost predicate Written(db: Db, w: Work)
    requires w.plan.Some?
  {
    var plan, d := w.plan.value, w.delta;
    d.txns == FinalTxns(db, w) && d.posts == plan.lines && Moved(w, |plan.moves|)
  }

  /** What stays the same while a plan is written out. */
  ghost predicate Backed(db: Db, w: Work)
    requires IsMoney(w.op) && w.plan.Some?
  {
    RowsCurrent(db, w) && Planned(db, w) && KeyReserved(db, w) && w.delta.ledgers == map[]
  }

  ghost predicate GoodWrite(db: Db, w: Work)
    requires IsMoney(w.op) && w.plan.Some?
  {
    Backed(db, w) && KeyPending(w) && Progress(db, w)
  }

  ghost predicate GoodUpdate(db: Db, w: Work)
    requires w.op.OpenAccount? || w.op.Close? || w.op.SetStatus?
  {
    && w.delta == NOTHING && w.plan.None?
    && (w.op.Close? ==> PrepareClose(Seen(db, w), w.op.account, w.op.username).Ok?)
    && (w.op.SetStatus? ==> PrepareStatus(Seen(db, w), w.op.account, w.op.status, w.op.valid).Ok?)
  }

  function FiledKey(w: Work): KeyRow
    requires w.op.KeyedTransfer? && w.plan.Some?
    requires w.op.req.id in w.delta.txns && w.op.req.from in w.delta.accounts && w.op.req.to in w.delta.accounts
  {
    var r, d := w.op.req, w.delta;
    KeyRow(w.op.hash, Some(Receipt(r.id, d.txns[r.id], w.plan.value.lines, d.accounts[r.from], d.accounts[r.to])), w.now + KEY_LIFETIME)
  }

  ghost predicate KeysReady(w: Work)
    requires w.plan.Some?
  {
    if w.op.KeyedTransfer? then
      && w.op.req.id in w.delta.txns && w.op.req.from in w.delta.accounts && w.op.req.to in w.delta.accounts
      && w.delta.keys == map[KeyOf(w.op) := FiledKey(w)]
    else w.delta.keys == map[]
  }

  ghost predicate ReadyMoney(db: Db, w: Work)
    requires IsMoney(w.op) && w.plan.Some?
  {
    Backed(db, w) && Progress(db, w) && KeysReady(w)
  }

  ghost predicate ReadyReplay(db: Db, w: Work)
    requires w.op.KeyedTransfer?
  {
    var k := KeyOf(w.op);
    && w.delta == NOTHING && KeyLock(k) in w.held
    && k in db.keys && db.keys[k].hash == w.op.hash && db.keys[k].result.Some?
  }

  ghost predicate ReadyAdmin(db: Db, w: Work)
    requires w.op.OpenAccount? || w.op.Close? || w.op.SetStatus?
  {
    var a := w.op.account;
    match w.op
    case OpenAccount(_, _, currency) =>
      w.delta == NOTHING.(accounts := map[a := OpenRow(w.op)], ledgers := map[CustomerLedger(a) := currency])
    case Close(_, username) =>
      var row := PrepareClose(Seen(db, w), a, username);
      row.Ok? && w.delta == NOTHING.(accounts := map[a := row.value])
    case SetStatus(_, status, valid) =>
      var row := PrepareStatus(Seen(db, w), a, status, valid);
      row.Ok? && w.delta == NOTHING.(accounts := map[a := row.value])
  }

  ghost predicate Ready(db: Db, w: Work) {
    if IsMoney(w.op) then
      if w.plan.Some? then ReadyMoney(db, w) else w.op.KeyedTransfer? && ReadyReplay(db, w)
    else (w.op.OpenAccount? || w.op.Close? || w.op.SetStatus?) && ReadyAdmin(db, w)
  }

  ghost predicate Knows(db: Db, w: Work)
    requires Shaped(w)
  {
    if OnKey(w.stage) then GoodKey(db, w)
    else if Writing(w.stage) then GoodWrite(db, w)
    else if w.stage.UpdateAccount? then GoodUpdate(db, w)
    else if w.stage.Commit? then Ready(db, w)
    else GoodRead(db, w)
  }

  ghost predicate Good(db: Db, w: Work) { Shaped(w) && Admissible(w.op) && RowsCurrent(db, w) && Knows(db, w) }

  // ---- a transaction's own steps keep what it knows ----

  lemma KeyStep(db: Db, w: Work, w': Work)
    requires Good(db, w) && OnKey(w.stage) && Exec(db, w) == Next(w')
    ensures Good(db, w')
  {}

  lemma ResolveStep(db: Db, w: Work, w': Work)
    requires Good(db, w) && w.stage.Resolve? && Exec(db, w) == Next(w')
    ensures Good(db, w')
  {
    Resolved(db, w, w');
  }

  lemma Resolved(db: Db, w: Work, w': Work)
    requires Shaped(w) && w.stage.Resolve? && ExecRead(db, w) == Next(w')
    ensures IdsRight(db, w') && w'.stage == Lock(0) && w'.ids[..0] == []
  {}

  lemma OriginalStep(db: Db, w: Work, w': Work)
    requires Good(db, w) && w.stage.ReadOriginal? && Exec(db, w) == Next(w')
    ensures Good(db, w')
  {}

  lemma ListStep(db: Db, w: Work, w': Work)
    requires Good(db, w) && w.stage.ListPostings? && Exec(db, w) == Next(w')
    ensures Good(db, w')
  {}

  lemma LockStep(db: Db, w: Work, w': Work)
    requires Good(db, w) && w.stage.Lock? && Exec(db, w) == Next(w')
    ensures Good(db, w')
  {
    var i := w.stage.i;
    LockEffect(db, w, w');
    RowAdded(w, i, w'.rows);
    SameIds(db, w, w');
    Locked(db, w, w');
  }

  ghost predicate TakesLock(db: Db, w: Work, w': Work) {
    && w.stage.Lock? && w.stage.i < |w.ids| && w.ids[w.stage.i] in db.accounts && w.ids[..|w.ids|] == w.ids
    && (var i, a := w.stage.i, w.ids[w.stage.i];
        w' == w.(stage := LockOrDecide(w, i + 1), held := w.held + {AccountLock(a)}, rows := w.rows[a := db.accounts[a]]))
    && IdsRight(db, w') && forall a :: a in w'.rows <==> a in w.ids[..w.stage.i + 1]
  }

  lemma LockedKnows(db: Db, w: Work, w': Work)
    requires GoodRead(db, w) && TakesLock(db, w, w')
    ensures GoodRead(db, w')
  {}

  lemma LockedShape(db: Db, w: Work, w': Work)
    requires Shaped(w) && RowsCurrent(db, w) && TakesLock(db, w, w') && (w.op.Reverse? || IsMoney(w.op) || w.op.Close? || w.op.SetStatus?)
    ensures Shaped(w') && RowsCurrent(db, w')
  {}

  lemma Locked(db: Db, w: Work, w': Work)
    requires Good(db, w) && TakesLock(db, w, w')
    ensures Good(db, w')
  {
    LockedKnows(db, w, w');
    LockedShape(db, w, w');
  }

  lemma LockEffect(db: Db, w: Work, w': Work)
    requires Shaped(w) && w.stage.Lock? && ExecRead(db, w) == Next(w')
    ensures var i, a := w.stage.i, w.ids[w.stage.i];
            && a in db.accounts && w.ids[..|w.ids|] == w.ids
            && w' == w.(stage := LockOrDecide(w, i + 1), held := w.held + {AccountLock(a)}, rows := w.rows[a := db.accounts[a]])
  {}

  lemma SameIds(db: Db, w: Work, w': Work)
    requires IdsRight(db, w) && w'.op == w.op && w'.ids == w.ids && w'.src == w.src && w'.original == w.original && w.held <= w'.held
    ensures IdsRight(db, w')
  {}

  lemma RowAdded(w: Work, i: nat, rows: map<AccountId, Account>)
    requires i < |w.ids| && (forall a :: a in w.rows <==> a in w.ids[..i])
    requires w.ids[i] in rows && rows == w.rows[w.ids[i] := rows[w.ids[i]]]
    ensures forall a :: a in rows <==> a in w.ids[..i + 1]
  {
    assert w.ids[..i + 1] == w.ids[..i] + [w.ids[i]];
  }

  lemma DecideAdmin(db: Db, w: Work, w': Work)
    requires Good(db, w) && w.stage.Decide? && (w.op.Close? || w.op.SetStatus?) && Exec(db, w) == Next(w')
    ensures Good(db, w')
  {}

  /** The reversal's checks, made on values read earlier, are the checks on the state as it is now. */
  lemma DecideReversal(db: Db, w: Work)
    requires w.op.Reverse? && w.op.valid && Shaped(w) && w.stage.Decide? && RowsCurrent(db, w) && IdsRight(db, w) && forall a :: a in w.rows <==> a in w.ids
    ensures PrepareReversal(Seen(db, w), w.op, w.now) ==
      if exists a | a in CustomersOf(w.src) :: w.rows[a].status == Closed then Err(AccountClosed)
      else ReversalPlan(w.original.value, w.op, w.src, w.now)
  {
    assert forall a | a in CustomersOf(w.src) :: a in w.rows;
  }

  lemma DecidePlan(db: Db, w: Work, w': Work)
    requires Good(db, w) && w.stage.Decide? && IsMoney(w.op) && Exec(db, w) == Next(w')
    ensures w'.plan.Some? && w' == w.(stage := Insert, plan := w'.plan)
    ensures Prepare(Seen(db, w), w.op, w.now) == Ok(w'.plan.value)
  {
    if w.op.Reverse? {
      DecideReversal(db, w);
    }
  }

  lemma DecideMoney(db: Db, w: Work, w': Work)
    requires Good(db, w) && w.stage.Decide? && IsMoney(w.op) && Exec(db, w) == Next(w')
    ensures Good(db, w')
  {
    DecidePlan(db, w, w');
    PlanIsBacked(db, w, w');
  }

  lemma PlanIsBacked(db: Db, w: Work, w': Work)
    requires RowsCurrent(db, w) && GoodRead(db, w) && w.stage.Decide? && IsMoney(w.op)
    requires w'.plan.Some? && w' == w.(stage := Insert, plan := w'.plan) && Prepare(Seen(db, w), w.op, w.now) == Ok(w'.plan.value)
    ensures Backed(db, w') && Progress(db, w') && KeyPending(w')
  {
    assert Seen(db, w') == Seen(db, w);
  }

  lemma OpenStep(db: Db, w: Work, w': Work)
    requires Good(db, w) && w.stage.UpdateAccount? && w.op.OpenAccount? && Exec(db, w) == Next(w')
    ensures Good(db, w')
  {}

  lemma CloseStep(db: Db, w: Work, w': Work)
    requires Good(db, w) && w.stage.UpdateAccount? && w.op.Close? && Exec(db, w) == Next(w')
    ensures Good(db, w')
  {}

  lemma StatusStep(db: Db, w: Work, w': Work)
    requires Good(db, w) && w.stage.UpdateAccount? && w.op.SetStatus? && Exec(db, w) == Next(w')
    ensures Good(db, w')
  {}

  /** A plan touches only accounts the planner saw, and its identity comes from the operation. */
  lemma PlanTouches(db: Db, op: Op, plan: Plan, now: Time)
    requires IsMoney(op) && Prepare(db, op, now) == Ok(plan)
    ensures forall m | m in plan.moves :: m.account in db.accounts
    ensures forall p | p in plan.lines :: p.txn == plan.id && (p.ledger.CustomerLedger? ==> p.ledger.account in db.accounts)
    ensures NewTxnId(op) == Some(plan.id) && |plan.lines| >= 2 && plan.txn.status == Pending
    ensures plan.txn.reversalOf == if op.Reverse? then Some(op.target) else None
    ensures op.Reverse? ==> op.target in db.txns && db.txns[op.target].status == Posted
    ensures op.Transfer? || op.KeyedTransfer? ==> plan == TransferPlan(op.req, now) && op.req.from != op.req.to
  {
    if op.Reverse? {
      ReversalIsChecked(db, op, plan, now);
      var src := PostingsOf(db.postings, op.target);
      PostingsOfTotals(db.postings, op.target, OfTxn(op.target), Amount);
      OppositeMovesMatch(src, op.target, 0);
      forall p | p in plan.lines
        ensures p.txn == plan.id && (p.ledger.CustomerLedger? ==> p.ledger.account in CustomersOf(src))
      {
        var i :| 0 <= i < |src| && p == plan.lines[i];
        assert src[i] in src;
      }
    }
  }

  lemma BackedStep(db: Db, w: Work, w': Work)
    requires IsMoney(w.op) && w.plan.Some? && Backed(db, w)
    requires w' == w.(stage := w'.stage, delta := w.delta.(accounts := w'.delta.accounts, txns := w'.delta.txns, posts := w'.delta.posts, keys := w'.delta.keys))
    ensures Backed(db, w')
  {}

  lemma MovedOne(db: Db, w: Work, w': Work, i: nat)
    requires w.plan.Some? && i < |w.plan.value.moves| && Moved(w, i) && RowsCurrent(db, w) && w.plan.value.moves[i].account in w.rows
    requires var m := w.plan.value.moves[i];
      && AddBalance(db.accounts + w.delta.accounts, m, w.plan.value.shortfall).Ok?
      && w' == w.(stage := w'.stage, delta := w.delta.(accounts :=
                 w.delta.accounts[m.account := AddBalance(db.accounts + w.delta.accounts, m, w.plan.value.shortfall).value]))
    ensures Moved(w', i + 1)
  {
    var plan, d := w.plan.value, w.delta;
    var m, done := plan.moves[i], plan.moves[..i + 1];
    assert (db.accounts + d.accounts)[m.account] == (w.rows + d.accounts)[m.account];
    assert done[..|done| - 1] == plan.moves[..i] && done[|done| - 1] == m;
    assert w.rows + w'.delta.accounts == (w.rows + d.accounts)[m.account := w'.delta.accounts[m.account]];
  }

  lemma NothingMoved(w: Work)
    requires w.plan.Some? && w.delta.accounts == map[]
    ensures Moved(w, 0)
  {
    assert w.plan.value.moves[..0] == [] && w.rows + map[] == w.rows;
  }

  lemma SameMoved(w: Work, w': Work)
    requires w.plan.Some? && Moved(w, |w.plan.value.moves|) && w'.plan == w.plan && w'.rows == w.rows && w'.delta.accounts == w.delta.accounts
    ensures Moved(w', |w'.plan.value.moves|)
  {}

  lemma TransferMovesBoth(w: Work)
    requires w.op.KeyedTransfer? && w.plan == Some(TransferPlan(w.op.req, w.now)) && Moved(w, |w.plan.value.moves|)
    ensures w.op.req.from in w.delta.accounts && w.op.req.to in w.delta.accounts
  {
    var moves := w.plan.value.moves;
    assert moves[0].account == w.op.req.from && moves[1].account == w.op.req.to;
  }

  /** The facts about the plan that the write statements use. */
  ghost predicate PlanFacts(db: Db, w: Work)
    requires IsMoney(w.op) && w.plan.Some?
  {
    var plan := w.plan.value;
    && (forall m | m in plan.moves :: m.account in w.rows)
    && |plan.lines| >= 2 && plan.id !in db.txns
    && plan.txn.reversalOf == (if w.op.Reverse? then Some(w.op.target) else None)
    && (w.op.Reverse? ==> w.op.target in db.txns && db.txns[w.op.target].status == Posted)
    && (w.op.KeyedTransfer? ==> plan == TransferPlan(w.op.req, w.now))
  }

  lemma AdvanceMoves(db: Db, w: Work, w': Work)
    requires Shaped(w) && w.stage.Adjust? && RowsCurrent(db, w) && PlanFacts(db, w)
    requires KeyPending(w) && Progress(db, w) && ExecWrite(db, w) == Next(w')
    ensures KeyPending(w') && Progress(db, w') && Shaped(w') && Writing(w'.stage)
  {
    var i, moves := w.stage.i, w.plan.value.moves;
    assert moves[i] in moves;
    AdjustEffect(db, w, w');
    MovedOne(db, w, w', i);
    Adjusted(db, w, w');
  }

  lemma Adjusted(db: Db, w: Work, w': Work)
    requires Shaped(w) && w.stage.Adjust? && KeyPending(w) && Progress(db, w)
    requires w' == w.(stage := AdjustFrom(w.plan.value, w.stage.i + 1), delta := w.delta.(accounts := w'.delta.accounts))
    requires Moved(w', w.stage.i + 1)
    ensures KeyPending(w') && Progress(db, w') && Shaped(w') && Writing(w'.stage)
  {}

  lemma AdjustEffect(db: Db, w: Work, w': Work)
    requires Shaped(w) && w.stage.Adjust? && ExecWrite(db, w) == Next(w')
    ensures var i, plan := w.stage.i, w.plan.value;
            var row := AddBalance(db.accounts + w.delta.accounts, plan.moves[i], plan.shortfall);
            && row.Ok? && w'.stage == AdjustFrom(plan, i + 1)
            && w' == w.(stage := w'.stage, delta := w.delta.(accounts := w.delta.accounts[plan.moves[i].account := row.value]))
  {}

  lemma AdvancePosts(db: Db, w: Work, w': Work)
    requires Shaped(w) && (w.stage.Insert? || w.stage.Post?) && PlanFacts(db, w)
    requires KeyPending(w) && Progress(db, w) && ExecWrite(db, w) == Next(w')
    ensures KeyPending(w') && Progress(db, w') && Shaped(w') && Writing(w'.stage)
  {
    if w.stage.Post? {
      PostLine(db, w, w');
    } else {
      InsertRow(db, w, w');
    }
  }

  lemma InsertRow(db: Db, w: Work, w': Work)
    requires Shaped(w) && w.stage.Insert? && |w.plan.value.lines| >= 2 && KeyPending(w) && Untouched(w.delta) && ExecWrite(db, w) == Next(w')
    ensures KeyPending(w') && Progress(db, w') && Shaped(w') && Writing(w'.stage)
  {
    assert w.plan.value.lines[..0] == [];
  }

  lemma PostLine(db: Db, w: Work, w': Work)
    requires Shaped(w) && w.stage.Post? && KeyPending(w) && Progress(db, w) && ExecWrite(db, w) == Next(w')
    ensures KeyPending(w') && Progress(db, w') && Shaped(w') && Writing(w'.stage)
  {
    var lines, i := w.plan.value.lines, w.stage.i;
    assert lines[..i + 1] == lines[..i] + [lines[i]] && lines[..|lines|] == lines;
    NothingMoved(w');
  }

  lemma PostedThenReversed(db: Db, w: Work, w': Work)
    requires Shaped(w) && w.stage.MarkPosted? && w.op.Reverse? && PlanFacts(db, w)
    requires KeyPending(w) && Progress(db, w) && ExecWrite(db, w) == Next(w')
    ensures w'.stage.MarkReversed? && Progress(db, w') && KeyPending(w') && Shaped(w')
  {
    SameMoved(w, w');
    Overwrite(w.plan.value.id, w.plan.value.txn, PostedRow(w.plan.value, w.now));
  }

  lemma PostedThenClosing(db: Db, w: Work, w': Work)
    requires Shaped(w) && w.stage.MarkPosted? && w.plan.value.txn.reversalOf.None?
    requires KeyPending(w) && Progress(db, w) && ExecWrite(db, w) == Next(w')
    ensures w'.stage == Closing(w.op) && Progress(db, w') && KeyPending(w')
  {
    PostedIsWritten(db, w, w');
  }

  lemma PostedIsWritten(db: Db, w: Work, w': Work)
    requires Shaped(w) && w.stage.MarkPosted? && w.plan.value.txn.reversalOf.None?
    requires Progress(db, w) && ExecWrite(db, w) == Next(w')
    ensures w'.stage == Closing(w.op) && Written(db, w') && w'.delta.keys == w.delta.keys && w'.op == w.op && w'.now == w.now
  {
    var plan := w.plan.value;
    SameMoved(w, w');
    Overwrite(plan.id, plan.txn, PostedRow(plan, w.now));
  }

  lemma Overwrite(t: TxnId, row: Txn, row': Txn)
    ensures map[t := row][t := row'] == map[t := row']
  {}

  lemma KeyCanBeFiled(db: Db, w: Work)
    requires w.op.KeyedTransfer? && w.stage.CompleteKey? && w.plan.Some? && PlanFacts(db, w) && KeyPending(w) && Progress(db, w)
    ensures Shaped(w)
  {
    TransferMovesBoth(w);
  }

  lemma AdvanceReversed(db: Db, w: Work, w': Work)
    requires Shaped(w) && w.stage.MarkReversed? && PlanFacts(db, w)
    requires KeyPending(w) && Progress(db, w) && ExecWrite(db, w) == Next(w')
    ensures w'.stage.Commit? && Progress(db, w') && KeysReady(w')
  {
    SameMoved(w, w');
  }

  lemma AdvanceFiled(db: Db, w: Work, w': Work)
    requires Shaped(w) && w.stage.CompleteKey? && PlanFacts(db, w)
    requires KeyPending(w) && Progress(db, w) && ExecWrite(db, w) == Next(w')
    ensures w'.stage.Commit? && Progress(db, w') && KeysReady(w')
  {
    FiledKeepsRest(db, w, w');
    TransferMovesBoth(w');
    KeyIsReady(db, w, w');
  }

  lemma FiledKeepsRest(db: Db, w: Work, w': Work)
    requires Shaped(w) && w.stage.CompleteKey? && Written(db, w) && ExecWrite(db, w) == Next(w')
    ensures w'.stage.Commit? && Written(db, w') && w'.plan == w.plan && w'.op == w.op && w'.now == w.now
  {
    SameMoved(w, w');
  }

  lemma KeyIsReady(db: Db, w: Work, w': Work)
    requires Shaped(w) && w.stage.CompleteKey? && KeyPending(w) && ExecWrite(db, w) == Next(w')
    ensures KeysReady(w')
  {}

  lemma WriteBody(db: Db, w: Work, w': Work)
    requires Good(db, w) && (w.stage.Insert? || w.stage.Post? || w.stage.Adjust?) && PlanFacts(db, w) && ExecWrite(db, w) == Next(w')
    ensures Good(db, w')
  {
    BackedStep(db, w, w');
    if w.stage.Adjust? {
      AdvanceMoves(db, w, w');
    } else {
      AdvancePosts(db, w, w');
    }
  }

  lemma WritePosted(db: Db, w: Work, w': Work)
    requires Good(db, w) && w.stage.MarkPosted? && PlanFacts(db, w) && ExecWrite(db, w) == Next(w')
    ensures Good(db, w')
  {
    BackedStep(db, w, w');
    if w.op.Reverse? {
      PostedThenReversed(db, w, w');
    } else {
      PostedThenClosing(db, w, w');
      if w.op.KeyedTransfer? { KeyCanBeFiled(db, w'); }
    }
  }

  lemma WriteEnd(db: Db, w: Work, w': Work)
    requires Good(db, w) && (w.stage.MarkReversed? || w.stage.CompleteKey?) && PlanFacts(db, w) && ExecWrite(db, w) == Next(w')
    ensures Good(db, w')
  {
    BackedStep(db, w, w');
    if w.stage.MarkReversed? {
      AdvanceReversed(db, w, w');
    } else {
      AdvanceFiled(db, w, w');
    }
  }

  lemma WriteKeepsGood(db: Db, w: Work, w': Work)
    requires Good(db, w) && Writing(w.stage) && Exec(db, w) == Next(w')
    requires NewTxnId(w.op).Some? ==> NewTxnId(w.op).value !in db.txns
    ensures Good(db, w')
  {
    PlanTouches(Seen(db, w), w.op, w.plan.value, w.now);
    if w.stage.MarkPosted? {
      WritePosted(db, w, w');
    } else if w.stage.MarkReversed? || w.stage.CompleteKey? {
      WriteEnd(db, w, w');
    } else {
      WriteBody(db, w, w');
    }
  }

  lemma ReadKeepsGood(db: Db, w: Work, w': Work)
    requires Good(db, w) && Reading(w.stage) && Exec(db, w) == Next(w')
    ensures Good(db, w')
  {
    match w.stage
    case Resolve => ResolveStep(db, w, w');
    case ReadOriginal => OriginalStep(db, w, w');
    case ListPostings => ListStep(db, w, w');
    case Lock(_) => LockStep(db, w, w');
  }

  lemma UpdateKeepsGood(db: Db, w: Work, w': Work)
    requires Good(db, w) && w.stage.UpdateAccount? && Exec(db, w) == Next(w')
    ensures Good(db, w')
  {
    match w.op
    case OpenAccount(_, _, _) => OpenStep(db, w, w');
    case Close(_, _) => CloseStep(db, w, w');
    case SetStatus(_, _, _) => StatusStep(db, w, w');
  }

  lemma ExecKeepsGood(db: Db, w: Work, w': Work)
    requires Good(db, w) && !w.stage.Commit? && Exec(db, w) == Next(w')
    requires NewTxnId(w.op).Some? ==> NewTxnId(w.op).value !in db.txns
    ensures Good(db, w')
  {
    if OnKey(w.stage) {
      KeyStep(db, w, w');
    } else if Reading(w.stage) {
      ReadKeepsGood(db, w, w');
    } else if w.stage.UpdateAccount? {
      UpdateKeepsGood(db, w, w');
    } else if Writing(w.stage) {
      WriteKeepsGood(db, w, w');
    } else if IsMoney(w.op) {
      DecideMoney(db, w, w');
    } else {
      DecideAdmin(db, w, w');
    }
  }
}
