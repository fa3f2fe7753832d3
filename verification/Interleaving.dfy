/** Concurrent database transactions, interleaved statement by statement.

    A step is one statement that reads or writes rows other transactions can change. Writes stay in
    the transaction's own delta until commit; `FOR UPDATE` reads and conflicting key statements take
    row locks, which are held until the transaction ends; every other read sees the latest committed
    state. Lookups of ledger accounts, whose rows never change, ride along with the next statement. */
module Interleaving {
  import opened Common
  import opened Tables
  import opened Operations

  datatype Row = KeyLock(k: KeyId) | TxnLock(t: TxnId) | AccountLock(a: AccountId)

  datatype Stage =
    | KeyDelete | KeyInsert | KeyRead
    | Resolve | ReadOriginal | ListPostings
    | Lock(i: nat) | Decide
    | Insert | Post(i: nat) | Adjust(i: nat) | MarkPosted | MarkReversed | CompleteKey
    | UpdateAccount | Commit

  /** Uncommitted writes. */
  datatype Delta = Delta(accounts: map<AccountId, Account>, ledgers: map<LedgerId, string>, txns: map<TxnId, Txn>,
                         posts: seq<Posting>, keys: map<KeyId, KeyRow>, dropped: set<KeyId>)

  const NOTHING := Delta(map[], map[], map[], [], map[], {})

  /** An open transaction: its locks, the values its earlier statements returned, and its writes. */
  datatype Work = Work(op: Op, now: Time, stage: Stage, held: set<Row>, ids: seq<AccountId>, rows: map<AccountId, Account>,
                       original: Option<Txn>, src: seq<Posting>, plan: Option<Plan>, delta: Delta)

  function Merge(db: Db, d: Delta): Db {
    Db(db.accounts + d.accounts, db.ledgers + d.ledgers, db.txns + d.txns, db.postings + d.posts, (db.keys - d.dropped) + d.keys)
  }

  /** What is validated before a transaction is opened at all. */
  predicate Admissible(op: Op) {
    && (op.KeyedTransfer? ==> KeyWellFormed(op.key, op.hash))
    && (op.Reverse? ==> op.valid)
    && (op.SetStatus? ==> op.valid && op.status != Closed)
    && !op.PurgeKeys?
  }

  function Begin(op: Op, now: Time): Work {
    var stage :=
      if op.KeyedTransfer? then KeyDelete
      else if op.Reverse? then ReadOriginal
      else if op.OpenAccount? then UpdateAccount
      else if op.Close? || op.SetStatus? then Lock(0)
      else Resolve;
    var ids := if op.Close? || op.SetStatus? then [op.account] else [];
    Work(op, now, stage, {}, ids, map[], None, [], None, NOTHING)
  }

  /** The row the next statement has to lock, if any. */
  function Request(db: Db, w: Work): Option<Row> {
    match w.stage
    case KeyDelete => if w.op.KeyedTransfer? && Expired(db.keys, KeyOf(w.op), w.now) then Some(KeyLock(KeyOf(w.op))) else None
    case KeyInsert => if w.op.KeyedTransfer? && Inserts(db, w) then Some(KeyLock(KeyOf(w.op))) else None
    case KeyRead => if w.op.KeyedTransfer? then Some(KeyLock(KeyOf(w.op))) else None
    case ReadOriginal => if w.op.Reverse? then Some(TxnLock(w.op.target)) else None
    case Lock(i) => if i < |w.ids| then Some(AccountLock(w.ids[i])) else None
    case _ => None
  }

  /** `INSERT ... ON CONFLICT DO NOTHING` inserts unless a committed row is visible. */
  predicate Inserts(db: Db, w: Work)
    requires w.op.KeyedTransfer?
  {
    KeyOf(w.op) !in db.keys || KeyOf(w.op) in w.delta.dropped
  }

  datatype StepResult = Next(w: Work) | Fail(error: Error)

  predicate OnKey(stage: Stage) { stage.KeyDelete? || stage.KeyInsert? || stage.KeyRead? }
  predicate Reading(stage: Stage) { stage.Resolve? || stage.ReadOriginal? || stage.ListPostings? || stage.Lock? }
  predicate Writing(stage: Stage) {
    stage.Insert? || stage.Post? || stage.Adjust? || stage.MarkPosted? || stage.MarkReversed? || stage.CompleteKey?
  }

  /** What each stage relies on: the values that earlier statements have produced. */
  predicate Shaped(w: Work) {
    && (OnKey(w.stage) || w.stage.CompleteKey? ==> w.op.KeyedTransfer?)
    && (w.stage.Resolve? ==> w.op.Transfer? || w.op.KeyedTransfer? || w.op.DepositTo? || w.op.WithdrawFrom?)
    && (w.stage.ReadOriginal? || w.stage.ListPostings? ==> w.op.Reverse?)
    && (w.stage.Lock? ==> w.stage.i < |w.ids|)
    && (w.stage.Decide? ==> IsMoney(w.op) || w.op.Close? || w.op.SetStatus?)
    && (w.stage.Decide? && w.op.Reverse? ==> w.original.Some? && forall a | a in CustomersOf(w.src) :: a in w.rows)
    && (w.stage.UpdateAccount? ==> w.op.OpenAccount? || w.op.Close? || w.op.SetStatus?)
    && (Writing(w.stage) ==> IsMoney(w.op) && w.plan.Some?)
    && (w.stage.Post? ==> w.stage.i < |w.plan.value.lines|)
    && (w.stage.Adjust? ==> w.stage.i < |w.plan.value.moves|)
    && (w.stage.MarkPosted? ==> w.plan.value.id in w.delta.txns)
    && (w.stage.MarkReversed? ==> w.plan.value.txn.reversalOf.Some?)
    && (w.stage.CompleteKey? ==>
          && KeyOf(w.op) in w.delta.keys && w.op.req.id in w.delta.txns
          && w.op.req.from in w.delta.accounts && w.op.req.to in w.delta.accounts)
  }

  function LockOrDecide(w: Work, i: nat): Stage { if i < |w.ids| then Lock(i) else Decide }

  function AdjustFrom(plan: Plan, i: nat): Stage { if i < |plan.moves| then Adjust(i) else MarkPosted }

  /** After the transaction is posted (and the original marked): file the key, then commit. */
  function Closing(op: Op): Stage { if op.KeyedTransfer? then CompleteKey else Commit }

  /** The key statements at the head of `IdempotentTransferTx`. */
  function ExecKey(db: Db, w: Work): StepResult
    requires Shaped(w) && OnKey(w.stage)
  {
    var k := KeyOf(w.op);
    match w.stage
    case KeyDelete =>
      if Expired(db.keys, k, w.now) then
        Next(w.(stage := KeyInsert, held := w.held + {KeyLock(k)}, delta := w.delta.(dropped := {k})))
      else Next(w.(stage := KeyInsert))
    case KeyInsert =>
      if Inserts(db, w) then
        Next(w.(stage := Resolve, held := w.held + {KeyLock(k)},
                delta := w.delta.(keys := map[k := KeyRow(w.op.hash, None, w.now + KEY_LIFETIME)])))
      else Next(w.(stage := KeyRead))
    case KeyRead =>
      if k !in db.keys then Fail(NoRows)
      else if db.keys[k].hash != w.op.hash then Fail(IdempotencyConflict)
      else if db.keys[k].result.None? then Fail(IncompleteRecord)
      else Next(w.(stage := Commit, held := w.held + {KeyLock(k)}))
  }

  /** Lookups, locks and checks, up to the first write. */
  ghost function ExecRead(db: Db, w: Work): StepResult
    requires Shaped(w) && Reading(w.stage)
  {
    match w.stage
    case Resolve =>
      if w.op.Transfer? || w.op.KeyedTransfer? then
        var r := w.op.req;
        if r.from !in db.accounts then Fail(AccountNotFound)
        else if r.to !in db.accounts then Fail(RecipientNotFound)
        else if r.from == r.to then Fail(SameAccount)
        else Next(w.(stage := Lock(0), ids := if r.from < r.to then [r.from, r.to] else [r.to, r.from]))
      else
        if w.op.amount <= 0 then Fail(AmountNotPositive)
        else if w.op.account !in db.accounts then Fail(AccountNotFound)
        else Next(w.(stage := Lock(0), ids := [w.op.account]))
    case ReadOriginal =>
      if w.op.target !in db.txns then Fail(TransactionNotFound)
      else
        var row := db.txns[w.op.target];
        if CheckReversible(row).Some? then Fail(CheckReversible(row).value)
        else Next(w.(stage := ListPostings, held := w.held + {TxnLock(w.op.target)}, original := Some(row)))
    case ListPostings =>
      var src := PostingsOf(db.postings, w.op.target);
      if |src| < 2 then Fail(TooFewPostings)
      else
        var w' := w.(src := src, ids := Ascending(CustomersOf(src)));
        Next(w'.(stage := LockOrDecide(w', 0)))
    case Lock(i) =>
      var a := w.ids[i];
      if a !in db.accounts then Fail(if w.op.Close? || w.op.SetStatus? then AccountNotFound else NoRows)
      else Next(w.(stage := LockOrDecide(w, i + 1), held := w.held + {AccountLock(a)}, rows := w.rows[a := db.accounts[a]]))
  }

  /** The checks on the locked rows, the ledger lookups and the daily total. Account rows are taken
      from the values read under lock, everything else from the latest committed state. */
  function ExecDecide(db: Db, w: Work): StepResult
    requires Shaped(w) && w.stage.Decide?
  {
    var seen := db.(accounts := w.rows);
    if w.op.Close? then
      match PrepareClose(seen, w.op.account, w.op.username) { case Err(e) => Fail(e) case Ok(_) => Next(w.(stage := UpdateAccount)) }
    else if w.op.SetStatus? then
      match PrepareStatus(seen, w.op.account, w.op.status, w.op.valid) { case Err(e) => Fail(e) case Ok(_) => Next(w.(stage := UpdateAccount)) }
    else
      var plan :=
        if w.op.Reverse? then
          if exists a | a in CustomersOf(w.src) :: w.rows[a].status == Closed then Err(AccountClosed)
          else ReversalPlan(w.original.value, w.op, w.src, w.now)
        else Prepare(seen, w.op, w.now);
      match plan { case Err(e) => Fail(e) case Ok(p) => Next(w.(stage := Insert, plan := Some(p))) }
  }

  /** The account-row updates of closing, freezing and opening. */
  function ExecUpdate(db: Db, w: Work): StepResult
    requires Shaped(w) && w.stage.UpdateAccount?
  {
    var a := w.op.account;
    if w.op.OpenAccount? then
      if a in db.accounts || CustomerLedger(a) in db.ledgers then Fail(DuplicateKey)
      else Next(w.(stage := Commit, delta := w.delta.(accounts := map[a := OpenRow(w.op)], ledgers := map[CustomerLedger(a) := w.op.currency])))
    else if a !in db.accounts then Fail(NoRows)
    else
      var row := db.accounts[a];
      if w.op.Close? then
        if row.balance != 0 || row.status == Closed then Fail(NoRows)
        else Next(w.(stage := Commit, delta := w.delta.(accounts := map[a := row.(status := Closed)])))
      else Next(w.(stage := Commit, delta := w.delta.(accounts := map[a := row.(status := w.op.status)])))
  }

  /** The writes of a planned money operation, one statement at a time. */
  function ExecWrite(db: Db, w: Work): StepResult
    requires Shaped(w) && Writing(w.stage)
  {
    var plan, d := w.plan.value, w.delta;
    match w.stage
    case Insert =>
      if plan.id in db.txns then Fail(DuplicateKey)
      else Next(w.(stage := if |plan.lines| > 0 then Post(0) else AdjustFrom(plan, 0), delta := d.(txns := map[plan.id := plan.txn])))
    case Post(i) =>
      Next(w.(stage := if i + 1 < |plan.lines| then Post(i + 1) else AdjustFrom(plan, 0), delta := d.(posts := d.posts + [plan.lines[i]])))
    case Adjust(i) =>
      (match AddBalance(db.accounts + d.accounts, plan.moves[i], plan.shortfall)
       case Err(e) => Fail(e)
       case Ok(row) => Next(w.(stage := AdjustFrom(plan, i + 1), delta := d.(accounts := d.accounts[plan.moves[i].account := row]))))
    case MarkPosted =>
      Next(w.(stage := if plan.txn.reversalOf.Some? then MarkReversed else Closing(w.op),
              delta := d.(txns := d.txns[plan.id := d.txns[plan.id].(status := Posted, postedAt := Some(w.now))])))
    case MarkReversed =>
      var t, all := plan.txn.reversalOf.value, db.txns + d.txns;
      if t !in all || all[t].status != Posted then Fail(NoRows)
      else Next(w.(stage := Closing(w.op), delta := d.(txns := d.txns[t := all[t].(status := Reversed)])))
    case CompleteKey =>
      var r, k := w.op.req, KeyOf(w.op);
      var receipt := Receipt(r.id, d.txns[r.id], plan.lines, d.accounts[r.from], d.accounts[r.to]);
      Next(w.(stage := Commit, delta := d.(keys := map[k := d.keys[k].(result := Some(receipt))])))
  }

  ghost function Exec(db: Db, w: Work): StepResult
    requires Shaped(w) && !w.stage.Commit?
  {
    if OnKey(w.stage) then ExecKey(db, w)
    else if Reading(w.stage) then ExecRead(db, w)
    else if w.stage.Decide? then ExecDecide(db, w)
    else if w.stage.UpdateAccount? then ExecUpdate(db, w)
    else ExecWrite(db, w)
  }

  // ---- the system ----

  type Pid = nat

  /** `used` holds every identifier ever drawn for a transaction, a UUID or a sequence value. `log` is a
      history: the operations that have written something, in the order of their commits. */
  datatype Sys = Sys(db: Db, work: map<Pid, Work>, usedTxns: set<TxnId>, usedAccounts: set<AccountId>, clock: Time, log: seq<Step>)

  function NewTxnId(op: Op): Option<TxnId> {
    if op.Transfer? || op.KeyedTransfer? then Some(op.req.id)
    else if op.DepositTo? || op.WithdrawFrom? || op.Reverse? then Some(op.id)
    else None
  }

  function NewAccountId(op: Op): Option<AccountId> { if op.OpenAccount? then Some(op.account) else None }

  ghost predicate Free(s: Sys, p: Pid, r: Row) { forall q | q in s.work && q != p :: r !in s.work[q].held }

  /** A transaction opens; the identifiers it draws have never been drawn before. */
  ghost predicate Opens(s: Sys, s': Sys, p: Pid, op: Op) {
    && p !in s.work && Admissible(op)
    && (NewTxnId(op).Some? ==> NewTxnId(op).value !in s.usedTxns)
    && (NewAccountId(op).Some? ==> NewAccountId(op).value !in s.usedAccounts)
    && s' == s.(work := s.work[p := Begin(op, s.clock)],
                usedTxns := s.usedTxns + (if NewTxnId(op).Some? then {NewTxnId(op).value} else {}),
                usedAccounts := s.usedAccounts + (if NewAccountId(op).Some? then {NewAccountId(op).value} else {}))
  }

  ghost predicate CanAdvance(s: Sys, p: Pid) {
    && p in s.work && Shaped(s.work[p]) && !s.work[p].stage.Commit?
    && (Request(s.db, s.work[p]).Some? ==> Free(s, p, Request(s.db, s.work[p]).value))
  }

  /** One statement; on error the transaction rolls back. */
  ghost predicate Advances(s: Sys, s': Sys, p: Pid) {
    && CanAdvance(s, p)
    && match Exec(s.db, s.work[p])
       case Next(w) => s' == s.(work := s.work[p := w])
       case Fail(_) => s' == s.(work := s.work - {p})
  }

  /** A transaction may also be rolled back at any point, for instance when its connection drops. */
  ghost predicate RollsBack(s: Sys, s': Sys, p: Pid) { p in s.work && s' == s.(work := s.work - {p}) }

  /** A keyed call that found its key taken: it writes nothing and returns the stored receipt. */
  predicate Replays(w: Work) { w.op.KeyedTransfer? && w.plan.None? }

  /** Commit publishes the delta. */
  ghost predicate Commits(s: Sys, s': Sys, p: Pid) {
    && p in s.work && s.work[p].stage.Commit?
    && var w := s.work[p];
       s' == s.(db := Merge(s.db, w.delta), work := s.work - {p}, log := if Replays(w) then s.log else s.log + [Step(w.op, w.now)])
  }

  /** The cleanup job deletes expired keys, none of them locked. */
  ghost predicate Purges(s: Sys, s': Sys) {
    && (forall k, p | Expired(s.db.keys, k, s.clock) && p in s.work :: KeyLock(k) !in s.work[p].held)
    && s' == s.(db := s.db.(keys := UnexpiredKeys(s.db.keys, s.clock)), log := s.log + [Step(PurgeKeys, s.clock)])
  }

  ghost predicate Ticks(s: Sys, s': Sys) { s.clock <= s'.clock && s' == s.(clock := s'.clock) }

  ghost predicate SysStep(s: Sys, s': Sys) {
    || (exists p, op :: Opens(s, s', p, op))
    || (exists p :: Advances(s, s', p) || RollsBack(s, s', p) || Commits(s, s', p))
    || Purges(s, s') || Ticks(s, s')
  }
}
