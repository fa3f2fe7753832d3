/** Interleaved runs are serial runs: the committed state of any interleaving, at any moment, is the
    state some sequence of atomic operations produces. */
module CommitOrder {
  import opened Common
  import opened Tables
  import opened Operations
  import opened LedgerInvariant
  import opened LedgerRuns
  import opened Interleaving
  import opened Serializability
  import opened Stability
  import TransferLimits

  // ---- a commit is an atomic operation ----

  lemma {:induction false} MovesOnRows(rows: map<AccountId, Account>, accounts: map<AccountId, Account>, moves: seq<Move>, e: Error)
    requires forall a | a in rows :: a in accounts && accounts[a] == rows[a]
    requires forall m | m in moves :: m.account in rows
    requires ApplyMoves(rows, moves, e).Ok?
    ensures ApplyMoves(rows, moves, e).value.Keys == rows.Keys
    ensures ApplyMoves(accounts, moves, e) == Ok(accounts + ApplyMoves(rows, moves, e).value)
  {
    if moves == [] {
      assert accounts + rows == accounts;
    } else {
      var last, before := moves[|moves| - 1], moves[..|moves| - 1];
      MovesOnRows(rows, accounts, before, e);
      var r := ApplyMoves(rows, before, e).value;
      assert (accounts + r)[last.account] == r[last.account];
      assert accounts + r[last.account := AddBalance(r, last, e).value] == (accounts + r)[last.account := AddBalance(r, last, e).value];
    }
  }

  /** Planning on the locked rows is planning on the whole state. */
  lemma PlanOnRows(db: Db, w: Work)
    requires IsMoney(w.op) && w.plan.Some? && RowsCurrent(db, w) && Planned(db, w)
    ensures Prepare(db, w.op, w.now) == Ok(w.plan.value)
  {
    if w.op.Reverse? {
      ReversalIsChecked(Seen(db, w), w.op, w.plan.value, w.now);
    }
  }

  lemma SettleOfTxns(db: Db, w: Work, accounts: map<AccountId, Account>)
    requires IsMoney(w.op) && w.plan.Some? && PlanFacts(db, w)
    requires ApplyMoves(db.accounts, w.plan.value.moves, w.plan.value.shortfall) == Ok(accounts)
    ensures Settle(db, w.plan.value, w.now) ==
      Ok(db.(accounts := accounts, txns := db.txns + FinalTxns(db, w), postings := db.postings + w.plan.value.lines))
  {
    var plan := w.plan.value;
    var posted := db.txns[plan.id := PostedRow(plan, w.now)];
    if w.op.Reverse? {
      var t := w.op.target;
      assert posted[t := posted[t].(status := Reversed)] == db.txns + FinalTxns(db, w);
    } else {
      assert posted == db.txns + FinalTxns(db, w);
    }
  }

  lemma AllMoved(db: Db, w: Work)
    requires IsMoney(w.op) && w.plan.Some? && RowsCurrent(db, w) && PlanFacts(db, w) && Moved(w, |w.plan.value.moves|)
    ensures ApplyMoves(db.accounts, w.plan.value.moves, w.plan.value.shortfall) == Ok(db.accounts + w.delta.accounts)
  {
    var plan := w.plan.value;
    assert plan.moves[..|plan.moves|] == plan.moves;
    MovesOnRows(w.rows, db.accounts, plan.moves, plan.shortfall);
    Absorbs(db.accounts, w.rows, w.delta.accounts);
  }

  lemma Absorbs(accounts: map<AccountId, Account>, rows: map<AccountId, Account>, changed: map<AccountId, Account>)
    requires forall a | a in rows :: a in accounts && accounts[a] == rows[a]
    ensures accounts + (rows + changed) == accounts + changed
  {}

  /** All tables but the keys end up as settling the plan leaves them. */
  lemma MoneySettles(db: Db, w: Work)
    requires IsMoney(w.op) && w.plan.Some? && Backed(db, w) && w.stage.Commit? && Progress(db, w) && PlanFacts(db, w)
    ensures PrepareAndSettle(db, w.op, w.now) == Ok(Merge(db, w.delta).(keys := db.keys))
  {
    PlanOnRows(db, w);
    AllMoved(db, w);
    SettleOfTxns(db, w, db.accounts + w.delta.accounts);
    MergeWithoutLedgers(db, w.delta);
  }

  lemma MergeWithoutLedgers(db: Db, d: Delta)
    requires d.ledgers == map[]
    ensures Merge(db, d).(keys := db.keys) ==
            db.(accounts := db.accounts + d.accounts, txns := db.txns + d.txns, postings := db.postings + d.posts)
  {
    assert db.ledgers + map[] == db.ledgers;
  }

  lemma KeyIsFiled(db: Db, w: Work)
    requires w.op.KeyedTransfer? && w.plan.Some? && KeyReserved(db, w) && KeysReady(w)
    ensures Merge(db, w.delta).keys == db.keys[KeyOf(w.op) := FiledKey(w)]
    ensures FiledKey(w) == KeyRow(w.op.hash, Some(ReceiptOf(Merge(db, w.delta).(keys := db.keys), w.op.req, w.plan.value.lines)), w.now + KEY_LIFETIME)
  {
    var k := KeyOf(w.op);
    assert (db.keys - w.delta.dropped) + map[k := FiledKey(w)] == db.keys[k := FiledKey(w)];
  }

  /** A keyed transfer whose key is free files the receipt of the plain transfer. */
  lemma KeyedOutcome(db: Db, op: Op, now: Time, db': Db)
    requires op.KeyedTransfer? && KeyWellFormed(op.key, op.hash) && (KeyOf(op) in db.keys ==> Expired(db.keys, KeyOf(op), now))
    requires PrepareAndSettle(db, op, now) == Ok(db') && Prepare(db, op, now) == Ok(TransferPlan(op.req, now))
    requires op.req.id in db'.txns && op.req.from in db'.accounts && op.req.to in db'.accounts
    ensures var row := KeyRow(op.hash, Some(ReceiptOf(db', op.req, TransferPlan(op.req, now).lines)), now + KEY_LIFETIME);
            Apply(db, op, now).Committed? && After(db, op, now) == db'.(keys := db.keys[KeyOf(op) := row])
  {}

  lemma KeyedCommit(db: Db, w: Work)
    requires w.op.KeyedTransfer? && w.plan.Some? && Admissible(w.op) && KeyReserved(db, w) && KeysReady(w)
    requires w.plan == Some(TransferPlan(w.op.req, w.now)) && Prepare(db, w.op, w.now) == Ok(w.plan.value)
    requires PrepareAndSettle(db, w.op, w.now) == Ok(Merge(db, w.delta).(keys := db.keys))
    ensures Apply(db, w.op, w.now).Committed? && Merge(db, w.delta) == After(db, w.op, w.now)
  {
    KeyIsFiled(db, w);
    KeyedOutcome(db, w.op, w.now, Merge(db, w.delta).(keys := db.keys));
  }

  lemma PlainCommit(db: Db, w: Work)
    requires IsMoney(w.op) && !w.op.KeyedTransfer? && w.plan.Some? && KeyReserved(db, w) && KeysReady(w)
    requires PrepareAndSettle(db, w.op, w.now) == Ok(Merge(db, w.delta).(keys := db.keys))
    ensures Apply(db, w.op, w.now).Committed? && Merge(db, w.delta) == After(db, w.op, w.now)
  {
    assert (db.keys - {}) + map[] == db.keys;
  }

  lemma MergeAccounts(db: Db, accounts: map<AccountId, Account>, ledgers: map<LedgerId, string>)
    ensures Merge(db, NOTHING.(accounts := accounts, ledgers := ledgers)) ==
            db.(accounts := db.accounts + accounts, ledgers := db.ledgers + ledgers)
  {
    assert db.txns + map[] == db.txns && db.postings + [] == db.postings && (db.keys - {}) + map[] == db.keys;
  }

  lemma OneRow<K, V>(m: map<K, V>, k: K, v: V)
    ensures m + map[k := v] == m[k := v] && m + map[] == m
  {}

  lemma AdminCommit(db: Db, w: Work)
    requires (w.op.OpenAccount? || w.op.Close? || w.op.SetStatus?) && RowsCurrent(db, w) && ReadyAdmin(db, w)
    requires w.op.OpenAccount? ==> w.op.account !in db.accounts && CustomerLedger(w.op.account) !in db.ledgers
    ensures Apply(db, w.op, w.now).Committed? && Merge(db, w.delta) == After(db, w.op, w.now)
  {
    var row := w.delta.accounts[w.op.account];
    MergeAccounts(db, w.delta.accounts, w.delta.ledgers);
    OneRow(db.accounts, w.op.account, row);
    if w.op.OpenAccount? {
      OneRow(db.ledgers, CustomerLedger(w.op.account), w.op.currency);
    } else {
      OneRow(db.ledgers, CustomerLedger(w.op.account), "");
    }
  }

  lemma MoneyCommit(db: Db, w: Work)
    requires IsMoney(w.op) && w.plan.Some? && w.stage.Commit? && Admissible(w.op) && ReadyMoney(db, w)
    requires NewTxnId(w.op).Some? ==> NewTxnId(w.op).value !in db.txns
    ensures Apply(db, w.op, w.now).Committed? && Merge(db, w.delta) == After(db, w.op, w.now)
  {
    PlanTouches(Seen(db, w), w.op, w.plan.value, w.now);
    MoneySettles(db, w);
    if w.op.KeyedTransfer? {
      PlanOnRows(db, w);
      KeyedCommit(db, w);
    } else {
      PlainCommit(db, w);
    }
  }

  /** A replay changes nothing. Run alone it would be the same replay unless the key has expired by its
      own clock, which happens when the row was committed by a transaction that started a key's
      lifetime or more earlier; run alone it would then transfer, or fail to. */
  lemma ReplayCommit(db: Db, w: Work)
    requires Replays(w) && Admissible(w.op) && ReadyReplay(db, w)
    ensures Merge(db, w.delta) == db
    ensures !Expired(db.keys, KeyOf(w.op), w.now) <==>
            Apply(db, w.op, w.now) == Committed(db, Transferred(db.keys[KeyOf(w.op)].result.value, true))
    ensures Expired(db.keys, KeyOf(w.op), w.now) ==>
            Apply(db, w.op, w.now).Rejected? || !Apply(db, w.op, w.now).reply.replayed
  {
    MergeAccounts(db, map[], map[]);
    assert db.accounts + map[] == db.accounts && db.ledgers + map[] == db.ledgers;
  }

  /** How a late replay comes about: the call finds no expired key, then the row of an older transaction
      is committed, and the call meets it. */
  lemma LateReplay(before: Db, db: Db, op: Op, now: Time) returns (w: Work, w1: Work, w2: Work)
    requires op.KeyedTransfer? && Admissible(op) && !Expired(before.keys, KeyOf(op), now)
    requires Expired(db.keys, KeyOf(op), now) && db.keys[KeyOf(op)].hash == op.hash && db.keys[KeyOf(op)].result.Some?
    ensures Exec(before, Begin(op, now)) == Next(w) && Good(db, w)
    ensures Exec(db, w) == Next(w1) && !w1.stage.Commit? && Exec(db, w1) == Next(w2)
    ensures w2.stage.Commit? && Replays(w2) && Merge(db, w2.delta) == db
    ensures Apply(db, op, now).Rejected? || !Apply(db, op, now).reply.replayed
  {
    w := Begin(op, now).(stage := KeyInsert);
    w1 := w.(stage := KeyRead);
    w2 := w1.(stage := Commit, held := {KeyLock(KeyOf(op))});
    ReplayCommit(db, w2);
  }

  /** Whatever ran in between, a transaction that reaches its commit has the effect of running alone
      on the state it commits to, or is a replay and has none. */
  lemma CommitIsApply(db: Db, w: Work)
    requires Good(db, w) && w.stage.Commit? && LedgersNamed(db)
    requires NewTxnId(w.op).Some? ==> NewTxnId(w.op).value !in db.txns
    requires NewAccountId(w.op).Some? ==> NewAccountId(w.op).value !in db.accounts
    ensures Replays(w) ==> Merge(db, w.delta) == db
    ensures !Replays(w) ==> Apply(db, w.op, w.now).Committed? && Merge(db, w.delta) == After(db, w.op, w.now)
  {
    if !IsMoney(w.op) {
      AdminCommit(db, w);
    } else if w.plan.None? {
      ReplayCommit(db, w);
    } else {
      MoneyCommit(db, w);
    }
  }

  // ---- the system invariant ----

  ghost predicate WorkOk(s: Sys, w: Work) {
    && Good(s.db, w)
    && (NewTxnId(w.op).Some? ==> NewTxnId(w.op).value in s.usedTxns && NewTxnId(w.op).value !in s.db.txns)
    && (NewAccountId(w.op).Some? ==> NewAccountId(w.op).value in s.usedAccounts && NewAccountId(w.op).value !in s.db.accounts)
  }

  ghost predicate Apart(w: Work, v: Work) {
    && w.held !! v.held
    && (NewTxnId(w.op).Some? ==> NewTxnId(w.op) != NewTxnId(v.op))
    && (NewAccountId(w.op).Some? ==> NewAccountId(w.op) != NewAccountId(v.op))
  }

  /** The committed state is the outcome of running the committed operations one at a time. */
  ghost predicate Serial(s: Sys) { s.db == Run(INITIAL, s.log) }

  lemma SerialExtends(log: seq<Step>, step: Step)
    ensures Run(INITIAL, log + [step]) == After(Run(INITIAL, log), step.op, step.now)
  {
    assert (log + [step])[..|log|] == log;
  }

  lemma SerialFacts(s: Sys)
    requires Serial(s)
    ensures LedgersNamed(s.db) && PostingsRefer(s.db)
  {
    ReachableIsSafe(s.log, "");
  }

  ghost predicate SysInv(s: Sys) {
    && Serial(s)
    && s.db.txns.Keys <= s.usedTxns && s.db.accounts.Keys <= s.usedAccounts
    && (forall p | p in s.work :: WorkOk(s, s.work[p]))
    && (forall p, q | p in s.work && q in s.work && p != q :: Apart(s.work[p], s.work[q]))
  }

  lemma BeginGood(db: Db, op: Op, now: Time)
    requires Admissible(op)
    ensures Good(db, Begin(op, now))
  {}

  lemma OpensKeeps(s: Sys, s': Sys, p: Pid, op: Op)
    requires SysInv(s) && Opens(s, s', p, op)
    ensures SysInv(s')
  {
    BeginGood(s.db, op, s.clock);
    forall q | q in s'.work
      ensures WorkOk(s', s'.work[q])
    {
      if q != p { assert WorkOk(s, s.work[q]); }
    }
    forall q, r | q in s'.work && r in s'.work && q != r
      ensures Apart(s'.work[q], s'.work[r])
    {
      if q != p && r != p {
        assert Apart(s.work[q], s.work[r]);
      } else if q == p {
        assert WorkOk(s, s.work[r]);
      } else {
        assert WorkOk(s, s.work[q]);
      }
    }
  }

  lemma ExecHolds(db: Db, w: Work, w': Work)
    requires Shaped(w) && !w.stage.Commit? && Exec(db, w) == Next(w')
    ensures w'.op == w.op && w'.now == w.now
    ensures forall r | r in w'.held :: r in w.held || Request(db, w) == Some(r)
  {}

  lemma NextKeeps(s: Sys, s': Sys, p: Pid, w: Work)
    requires SysInv(s) && p in s.work && s' == s.(work := s.work[p := w]) && Good(s.db, w)
    requires w.op == s.work[p].op && w.now == s.work[p].now
    requires forall r | r in w.held :: r in s.work[p].held || Free(s, p, r)
    ensures SysInv(s')
  {
    assert WorkOk(s, s.work[p]);
    forall q | q in s'.work
      ensures WorkOk(s', s'.work[q])
    {
      if q != p { assert WorkOk(s, s.work[q]); }
    }
    NextApart(s, s', p, w);
  }

  lemma NextApart(s: Sys, s': Sys, p: Pid, w: Work)
    requires forall p, q | p in s.work && q in s.work && p != q :: Apart(s.work[p], s.work[q])
    requires p in s.work && s'.work == s.work[p := w] && w.op == s.work[p].op
    requires forall r | r in w.held :: r in s.work[p].held || Free(s, p, r)
    ensures forall q, r | q in s'.work && r in s'.work && q != r :: Apart(s'.work[q], s'.work[r])
  {
    forall q, r | q in s'.work && r in s'.work && q != r
      ensures Apart(s'.work[q], s'.work[r])
    {
      assert Apart(s.work[q], s.work[r]);
    }
  }

  lemma AdvancesKeeps(s: Sys, s': Sys, p: Pid)
    requires SysInv(s) && Advances(s, s', p)
    ensures SysInv(s')
  {
    assert WorkOk(s, s.work[p]);
    match Exec(s.db, s.work[p])
    case Fail(_) => RemovalKeeps(s, s', p);
    case Next(w) =>
      ExecKeepsGood(s.db, s.work[p], w);
      ExecHolds(s.db, s.work[p], w);
      NextKeeps(s, s', p, w);
  }

  lemma RemovalKeeps(s: Sys, s': Sys, p: Pid)
    requires SysInv(s) && s' == s.(work := s.work - {p})
    ensures SysInv(s')
  {
    forall q | q in s'.work
      ensures WorkOk(s', s'.work[q])
    {
      assert WorkOk(s, s.work[q]);
    }
  }

  lemma OthersKept(s: Sys, s': Sys, w: Work, v: Work)
    requires WorkOk(s, v) && Apart(w, v) && PostingsRefer(s.db) && Framed(s.db, s'.db, w, w.delta.posts)
    requires s'.usedTxns == s.usedTxns && s'.usedAccounts == s.usedAccounts
    ensures WorkOk(s', v)
  {
    FramedIsUnaffected(s.db, s'.db, w, w.delta.posts, v);
    GoodStable(s.db, s'.db, v);
  }

  /** The commit of `w` publishes the result of `w`'s own operation, and logs it unless it replays. */
  ghost predicate CommitOf(s: Sys, s': Sys, w: Work) {
    if Replays(w) then s'.db == s.db && s'.log == s.log
    else
      && s'.log == s.log + [Step(w.op, w.now)]
      && Apply(s.db, w.op, w.now).Committed? && s'.db == After(s.db, w.op, w.now)
  }

  lemma CommitEffect(s: Sys, s': Sys, p: Pid)
    requires Serial(s) && Commits(s, s', p) && WorkOk(s, s.work[p])
    ensures CommitOf(s, s', s.work[p]) && Serial(s')
    ensures Framed(s.db, s'.db, s.work[p], s.work[p].delta.posts)
  {
    var w := s.work[p];
    SerialFacts(s);
    CommitIsApply(s.db, w);
    CommitFramed(s.db, w);
    SerialExtends(s.log, Step(w.op, w.now));
  }

  lemma AllOthersKept(s: Sys, s': Sys, p: Pid)
    requires SysInv(s) && p in s.work && Framed(s.db, s'.db, s.work[p], s.work[p].delta.posts) && PostingsRefer(s.db)
    requires s' == s.(db := s'.db, work := s.work - {p}, log := s'.log)
    ensures forall q | q in s'.work :: WorkOk(s', s'.work[q])
  {
    forall q | q in s'.work
      ensures WorkOk(s', s'.work[q])
    {
      OthersKept(s, s', s.work[p], s.work[q]);
    }
  }

  lemma CommitsKeeps(s: Sys, s': Sys, p: Pid)
    requires SysInv(s) && Commits(s, s', p)
    ensures SysInv(s') && CommitOf(s, s', s.work[p])
  {
    CommitEffect(s, s', p);
    SerialFacts(s);
    AllOthersKept(s, s', p);
    NewKeysUsed(s, s', s.work[p]);
  }

  lemma NewKeysUsed(s: Sys, s': Sys, w: Work)
    requires s.db.txns.Keys <= s.usedTxns && s.db.accounts.Keys <= s.usedAccounts && WorkOk(s, w)
    requires Framed(s.db, s'.db, w, w.delta.posts)
    ensures s'.db.txns.Keys <= s.usedTxns && s'.db.accounts.Keys <= s.usedAccounts
  {
    forall t | t in s'.db.txns
      ensures t in s.usedTxns
    {
      assert t in s.db.txns ==> t in s.db.txns.Keys;
    }
    forall a | a in s'.db.accounts
      ensures a in s.usedAccounts
    {
      assert a in s.db.accounts ==> a in s.db.accounts.Keys;
    }
  }

  lemma PurgesKeeps(s: Sys, s': Sys)
    requires SysInv(s) && Purges(s, s')
    ensures SysInv(s') && s'.db == After(s.db, PurgeKeys, s.clock)
  {
    SerialExtends(s.log, Step(PurgeKeys, s.clock));
    forall q | q in s'.work
      ensures WorkOk(s', s'.work[q])
    {
      assert WorkOk(s, s.work[q]);
      PurgeUnaffected(s.db, s.clock, s.work[q]);
      GoodStable(s.db, s'.db, s.work[q]);
    }
  }

  lemma TicksKeeps(s: Sys, s': Sys)
    requires SysInv(s) && Ticks(s, s')
    ensures SysInv(s')
  {
    forall q | q in s'.work
      ensures WorkOk(s', s'.work[q])
    {
      assert WorkOk(s, s.work[q]);
    }
  }

  /** Every step keeps the invariant; only a commit, which performs the committing transaction's own
      operation, and the cleanup change the committed state. */
  lemma StepIsAtomic(s: Sys, s': Sys)
    requires SysInv(s) && SysStep(s, s')
    ensures SysInv(s')
    ensures || (s'.db == s.db && s'.log == s.log)
            || (exists p :: Commits(s, s', p) && CommitOf(s, s', s.work[p]))
            || (Purges(s, s') && s'.db == After(s.db, PurgeKeys, s.clock))
  {
    if p, op :| Opens(s, s', p, op) {
      OpensKeeps(s, s', p, op);
    } else if p :| Advances(s, s', p) {
      AdvancesKeeps(s, s', p);
    } else if p :| RollsBack(s, s', p) {
      RemovalKeeps(s, s', p);
    } else if p :| Commits(s, s', p) {
      CommitsKeeps(s, s', p);
    } else if Purges(s, s') {
      PurgesKeeps(s, s');
    } else {
      TicksKeeps(s, s');
    }
  }

  // ---- interleaved runs ----

  ghost predicate Linked(trace: seq<Sys>, i: nat)
    requires i + 1 < |trace|
  {
    SysStep(trace[i], trace[i + 1])
  }

  ghost predicate Execution(trace: seq<Sys>) {
    && trace != [] && trace[0] == Sys(INITIAL, map[], {}, {}, trace[0].clock, [])
    && forall i: nat | i + 1 < |trace| :: Linked(trace, i)
  }

  /** Any interleaving, at any moment, has committed exactly what its committed operations produce when
      they are run one at a time, in the order of their commits. */
  lemma {:induction false} InterleavingIsSerial(trace: seq<Sys>, i: nat)
    requires Execution(trace) && i < |trace|
    ensures SysInv(trace[i])
    ensures trace[i].db == Run(INITIAL, trace[i].log)
  {
    if i > 0 {
      InterleavingIsSerial(trace, i - 1);
      assert Linked(trace, i - 1);
      StepIsAtomic(trace[i - 1], trace[i]);
    }
  }

  /** The log is the committed transactions: its `k`-th entry was appended by the cleanup, or by the
      commit of a transaction with that operation and start time. */
  lemma {:induction false} LogIsCommits(trace: seq<Sys>, i: nat, k: nat) returns (j: nat)
    requires Execution(trace) && i < |trace| && k < |trace[i].log|
    ensures j < i && trace[j].log == trace[i].log[..k]
    ensures LoggedBy(trace[j], trace[j + 1], trace[i].log[k])
  {
    if k < |trace[i - 1].log| {
      j := LogIsCommits(trace, i - 1, k);
      LogGrows(trace, i - 1);
      assert trace[i].log[..k] == trace[i - 1].log[..k];
    } else {
      j := i - 1;
      LogGrows(trace, j);
    }
  }

  ghost predicate LoggedBy(s: Sys, s': Sys, step: Step) {
    || (Purges(s, s') && step.op == PurgeKeys)
    || (exists p :: Commits(s, s', p) && CommitOf(s, s', s.work[p]) && !Replays(s.work[p]) && step == Step(s.work[p].op, s.work[p].now))
  }

  lemma LogGrows(trace: seq<Sys>, j: nat)
    requires Execution(trace) && j + 1 < |trace|
    ensures var log, log' := trace[j].log, trace[j + 1].log;
            log' == log || (|log'| == |log| + 1 && log'[..|log|] == log && LoggedBy(trace[j], trace[j + 1], log'[|log|]))
  {
    InterleavingIsSerial(trace, j);
    assert Linked(trace, j);
    StepIsAtomic(trace[j], trace[j + 1]);
  }

  /** So no interleaving overdraws an account, posts to a closed one, breaks a balance or passes a limit. */
  lemma InterleavingIsSafe(trace: seq<Sys>, i: nat, c: string)
    requires Execution(trace) && i < |trace|
    ensures Inv(trace[i].db) && TransferLimits.WithinDailyLimit(trace[i].db)
    ensures SumMap(CustomerBalances(trace[i].db, c)) + Total(trace[i].db.postings, OnLedger(SettlementLedger(c)), Amount) == 0
  {
    InterleavingIsSerial(trace, i);
    ReachableIsSafe(trace[i].log, c);
    TransferLimits.DailyLimitHolds(trace[i].log);
  }

  lemma StepPersists(s: Sys, s': Sys)
    requires SysInv(s) && SysStep(s, s')
    ensures Persists(s.db, s'.db)
  {
    StepIsAtomic(s, s');
    ReachableIsSafe(s.log, "");
    if p :| Commits(s, s', p) && CommitOf(s, s', s.work[p]) {
      ApplyPersists(s.db, s.work[p].op, s.work[p].now);
    } else if Purges(s, s') {
      ApplyPersists(s.db, PurgeKeys, s.clock);
    }
  }

  lemma LinkPersists(trace: seq<Sys>, j: nat)
    requires Execution(trace) && 0 < j < |trace|
    ensures Persists(trace[j - 1].db, trace[j].db)
  {
    InterleavingIsSerial(trace, j - 1);
    assert Linked(trace, j - 1);
    StepPersists(trace[j - 1], trace[j]);
  }

  /** Nor does any interleaving reopen a closed account or undo a committed posting. */
  lemma {:induction false} InterleavingPersists(trace: seq<Sys>, i: nat, j: nat)
    requires Execution(trace) && i <= j < |trace|
    ensures Persists(trace[i].db, trace[j].db)
  {
    if i < j {
      InterleavingPersists(trace, i, j - 1);
      LinkPersists(trace, j);
      PersistsTransitive(trace[i].db, trace[j - 1].db, trace[j].db);
    }
  }
}
