/** The daily transfer limit, over every run and whatever the order of start times. The check in
    the code counts everything since the start of its own day, later days included, so it can only
    be stricter than the limit on each single day. */
module TransferLimits {
  import opened Common
  import opened Tables
  import opened Operations
  import opened LedgerInvariant
  import opened LedgerRuns

  /** Transfers out of a ledger created in `[lo, hi)`, reversed ones included. */
  function OutgoingBetween(ps: seq<Posting>, txns: map<TxnId, Txn>, l: LedgerId, lo: Time, hi: Time): int {
    if ps == [] then 0
    else
      var last := ps[|ps| - 1];
      OutgoingBetween(ps[..|ps| - 1], txns, l, lo, hi) +
      (if CountsTowardsLimit(txns, l, last) && lo <= txns[last.txn].createdAt < hi then txns[last.txn].amount else 0)
  }

  /** The total for the UTC day numbered `d` since the epoch. */
  function DayTotal(db: Db, l: LedgerId, d: int): int {
    OutgoingBetween(db.postings, db.txns, l, d * DAY, d * DAY + DAY)
  }

  ghost predicate LimitsHold(db: Db) { forall l, d :: DayTotal(db, l, d) <= DAILY_LIMIT }

  lemma {:induction false} DayWithinSince(ps: seq<Posting>, txns: map<TxnId, Txn>, l: LedgerId, lo: Time, hi: Time)
    requires forall p | p in ps && p.txn in txns :: txns[p.txn].amount > 0
    ensures OutgoingBetween(ps, txns, l, lo, hi) <= OutgoingSince(ps, txns, l, lo)
  {
    if ps != [] {
      DayWithinSince(ps[..|ps| - 1], txns, l, lo, hi);
    }
  }

  /** Neither a new transaction nor marking one reversed changes what the old postings count for. */
  lemma {:induction false} OldPostingsCountTheSame(ps: seq<Posting>, txns: map<TxnId, Txn>, txns': map<TxnId, Txn>, l: LedgerId, lo: Time, hi: Time)
    requires forall p | p in ps ::
               && p.txn in txns && p.txn in txns'
               && (txns'[p.txn] == txns[p.txn] || (txns[p.txn].status == Posted && txns'[p.txn] == txns[p.txn].(status := Reversed)))
    ensures OutgoingBetween(ps, txns', l, lo, hi) == OutgoingBetween(ps, txns, l, lo, hi)
  {
    if ps != [] {
      OldPostingsCountTheSame(ps[..|ps| - 1], txns, txns', l, lo, hi);
    }
  }

  lemma {:induction false} OutgoingAppend(ps: seq<Posting>, qs: seq<Posting>, txns: map<TxnId, Txn>, l: LedgerId, lo: Time, hi: Time)
    ensures OutgoingBetween(ps + qs, txns, l, lo, hi) == OutgoingBetween(ps, txns, l, lo, hi) + OutgoingBetween(qs, txns, l, lo, hi)
  {
    if qs == [] {
      assert ps + qs == ps;
    } else {
      assert (ps + qs)[..|ps + qs| - 1] == ps + qs[..|qs| - 1];
      OutgoingAppend(ps, qs[..|qs| - 1], txns, l, lo, hi);
    }
  }

  lemma {:induction false} OtherKindsDoNotCount(qs: seq<Posting>, txns: map<TxnId, Txn>, id: TxnId, l: LedgerId, lo: Time, hi: Time)
    requires id in txns && (forall p | p in qs :: p.txn == id)
    requires txns[id].kind != InternalTransfer || !(lo <= txns[id].createdAt < hi) || forall p | p in qs :: p.ledger != l || p.amount > 0
    ensures OutgoingBetween(qs, txns, l, lo, hi) == 0
  {
    if qs != [] {
      OtherKindsDoNotCount(qs[..|qs| - 1], txns, id, l, lo, hi);
    }
  }

  lemma SettleCounts(db: Db, plan: Plan, now: Time, l: LedgerId, lo: Time, hi: Time)
    requires Inv(db) && PlanOk(db, plan, now) && Settle(db, plan, now).Ok?
    ensures var db' := Settle(db, plan, now).value;
      OutgoingBetween(db'.postings, db'.txns, l, lo, hi)
      == OutgoingBetween(db.postings, db.txns, l, lo, hi) + OutgoingBetween(plan.lines, db'.txns, l, lo, hi)
  {
    var db' := Settle(db, plan, now).value;
    OutgoingAppend(db.postings, plan.lines, db'.txns, l, lo, hi);
    OldPostingsCountTheSame(db.postings, db.txns, db'.txns, l, lo, hi);
  }

  lemma TransferCounts(lines: seq<Posting>, txns: map<TxnId, Txn>, l: LedgerId, lo: Time, hi: Time)
    requires |lines| == 2 && lines[0].txn == lines[1].txn && lines[0].txn in txns && lines[1].amount > 0
    ensures OutgoingBetween(lines, txns, l, lo, hi) <= if txns[lines[0].txn].amount > 0 then txns[lines[0].txn].amount else 0
  {
    assert lines[..|lines| - 1] == [lines[0]] && [lines[0]][..0] == [];
    assert OutgoingBetween([lines[0]], txns, l, lo, hi) ==
      if CountsTowardsLimit(txns, l, lines[0]) && lo <= txns[lines[0].txn].createdAt < hi then txns[lines[0].txn].amount else 0;
  }

  lemma SameDay(now: Time, d: int)
    requires d * DAY <= now < d * DAY + DAY
    ensures DayStart(now) == d * DAY
  {}

  lemma TransferKeepsLimit(db: Db, r: TransferRequest, plan: Plan, now: Time, l: LedgerId, d: int)
    requires Inv(db) && LimitsHold(db) && PrepareTransfer(db, r, now) == Ok(plan) && Settle(db, plan, now).Ok?
    ensures DayTotal(Settle(db, plan, now).value, l, d) <= DAILY_LIMIT
  {
    assert DayTotal(db, l, d) <= DAILY_LIMIT;
    PreparedTransferOk(db, r, now);
    TransferRow(db, r, plan, now);
    SettleCounts(db, plan, now, l, d * DAY, d * DAY + DAY);
    NewTransferCounts(r, plan, now, Settle(db, plan, now).value.txns, l, d);
    if l == CustomerLedger(r.from) && d * DAY <= now < d * DAY + DAY {
      SenderWithinLimit(db, r, plan, now, d);
    }
  }

  lemma TransferRow(db: Db, r: TransferRequest, plan: Plan, now: Time)
    requires PrepareTransfer(db, r, now) == Ok(plan) && Settle(db, plan, now).Ok?
    ensures plan == TransferPlan(r, now) && r.amount > 0
    ensures r.id in Settle(db, plan, now).value.txns && Settle(db, plan, now).value.txns[r.id] == PostedRow(plan, now)
  {}

  lemma NewTransferCounts(r: TransferRequest, plan: Plan, now: Time, txns: map<TxnId, Txn>, l: LedgerId, d: int)
    requires plan == TransferPlan(r, now) && r.amount > 0 && r.id in txns && txns[r.id] == PostedRow(plan, now)
    ensures OutgoingBetween(plan.lines, txns, l, d * DAY, d * DAY + DAY)
         <= if l == CustomerLedger(r.from) && d * DAY <= now < d * DAY + DAY then r.amount else 0
  {
    if l == CustomerLedger(r.from) && d * DAY <= now < d * DAY + DAY {
      TransferCounts(plan.lines, txns, l, d * DAY, d * DAY + DAY);
    } else {
      OtherKindsDoNotCount(plan.lines, txns, r.id, l, d * DAY, d * DAY + DAY);
    }
  }

  lemma SenderWithinLimit(db: Db, r: TransferRequest, plan: Plan, now: Time, d: int)
    requires Inv(db) && PrepareTransfer(db, r, now) == Ok(plan) && d * DAY <= now < d * DAY + DAY
    ensures DayTotal(db, CustomerLedger(r.from), d) + r.amount <= DAILY_LIMIT
  {
    SameDay(now, d);
    forall p | p in db.postings
      ensures db.txns[p.txn].amount > 0
    {
      assert TxnBalanced(db, p.txn);
    }
    DayWithinSince(db.postings, db.txns, CustomerLedger(r.from), d * DAY, d * DAY + DAY);
  }

  lemma OthersKeepLimit(db: Db, plan: Plan, now: Time, l: LedgerId, d: int)
    requires Inv(db) && LimitsHold(db) && PlanOk(db, plan, now) && plan.txn.kind != InternalTransfer && Settle(db, plan, now).Ok?
    ensures DayTotal(Settle(db, plan, now).value, l, d) <= DAILY_LIMIT
  {
    assert DayTotal(db, l, d) <= DAILY_LIMIT;
    SettleCounts(db, plan, now, l, d * DAY, d * DAY + DAY);
    OtherKindsDoNotCount(plan.lines, Settle(db, plan, now).value.txns, plan.id, l, d * DAY, d * DAY + DAY);
  }

  lemma SettleKeepsLimits(db: Db, op: Op, plan: Plan, now: Time)
    requires Inv(db) && LimitsHold(db) && IsMoney(op) && Prepare(db, op, now) == Ok(plan) && Settle(db, plan, now).Ok?
    ensures LimitsHold(Settle(db, plan, now).value)
  {
    PreparedOk(db, op, now);
    forall l, d
      ensures DayTotal(Settle(db, plan, now).value, l, d) <= DAILY_LIMIT
    {
      if op.Transfer? || op.KeyedTransfer? {
        TransferKeepsLimit(db, op.req, plan, now, l, d);
      } else {
        OthersKeepLimit(db, plan, now, l, d);
      }
    }
  }

  lemma ApplyKeepsLimits(db: Db, op: Op, now: Time)
    requires Inv(db) && LimitsHold(db)
    ensures LimitsHold(After(db, op, now))
  {
    var db' := After(db, op, now);
    if db'.postings != db.postings || db'.txns != db.txns {
      SettleKeepsLimits(db, op, Prepare(db, op, now).value, now);
      var settled := Settle(db, Prepare(db, op, now).value, now).value;
      forall l, d
        ensures DayTotal(db', l, d) <= DAILY_LIMIT
      {
        assert DayTotal(settled, l, d) <= DAILY_LIMIT;
      }
    } else {
      forall l, d
        ensures DayTotal(db', l, d) <= DAILY_LIMIT
      {
        assert DayTotal(db, l, d) <= DAILY_LIMIT;
      }
    }
  }

  lemma {:induction false} LimitsHoldInRuns(steps: seq<Step>)
    ensures LimitsHold(Run(INITIAL, steps))
  {
    if steps == [] {
      assert forall l, d :: DayTotal(INITIAL, l, d) == 0;
    } else {
      var last, before := steps[|steps| - 1], Run(INITIAL, steps[..|steps| - 1]);
      LimitsHoldInRuns(steps[..|steps| - 1]);
      ReachableIsSafe(steps[..|steps| - 1], "USD");
      ApplyKeepsLimits(before, last.op, last.now);
    }
  }

  // ---- what the totals are, transaction by transaction ----

  predicate Within(row: Txn, lo: Time, hi: Option<Time>) { lo <= row.createdAt && (hi.Some? ==> row.createdAt < hi.value) }

  /** The transfers that debit a ledger, each with its amount. */
  ghost function Debits(ps: seq<Posting>, txns: map<TxnId, Txn>, l: LedgerId, lo: Time, hi: Option<Time>): map<TxnId, int> {
    map t | t in txns && txns[t].kind == InternalTransfer && (txns[t].status == Posted || txns[t].status == Reversed)
            && Within(txns[t], lo, hi) && Total(ps, Cell(t, l), Amount) < 0 :: txns[t].amount
  }

  lemma OneMoreDebit(ps: seq<Posting>, txns: map<TxnId, Txn>, l: LedgerId, lo: Time, hi: Option<Time>)
    requires ps != [] && CellsUnique(ps, l) && ps[|ps| - 1].txn in txns
    ensures var last := ps[|ps| - 1];
            SumMap(Debits(ps, txns, l, lo, hi)) == SumMap(Debits(ps[..|ps| - 1], txns, l, lo, hi)) +
            if CountsTowardsLimit(txns, l, last) && Within(txns[last.txn], lo, hi) then txns[last.txn].amount else 0
  {
    var prev, last := ps[..|ps| - 1], ps[|ps| - 1];
    var before, after, t := Debits(prev, txns, l, lo, hi), Debits(ps, txns, l, lo, hi), last.txn;
    if last.ledger == l {
      EarlierCellIsEmpty(ps, l);
    }
    if t in after && last.ledger == l {
      SumMapRemove(after, t);
      assert after - {t} == before;
    } else {
      assert after == before;
    }
  }

  lemma {:induction false} BetweenIsDebits(ps: seq<Posting>, txns: map<TxnId, Txn>, l: LedgerId, lo: Time, hi: Time)
    requires CellsUnique(ps, l) && forall p | p in ps :: p.txn in txns
    ensures OutgoingBetween(ps, txns, l, lo, hi) == SumMap(Debits(ps, txns, l, lo, Some(hi)))
  {
    if ps != [] {
      CellsStayUnique(ps, l);
      BetweenIsDebits(ps[..|ps| - 1], txns, l, lo, hi);
      OneMoreDebit(ps, txns, l, lo, Some(hi));
    } else {
      assert Debits(ps, txns, l, lo, Some(hi)) == map[];
    }
  }

  lemma {:induction false} SinceIsDebits(ps: seq<Posting>, txns: map<TxnId, Txn>, l: LedgerId, since: Time)
    requires CellsUnique(ps, l) && forall p | p in ps :: p.txn in txns
    ensures OutgoingSince(ps, txns, l, since) == SumMap(Debits(ps, txns, l, since, None))
  {
    if ps != [] {
      CellsStayUnique(ps, l);
      SinceIsDebits(ps[..|ps| - 1], txns, l, since);
      OneMoreDebit(ps, txns, l, since, None);
    } else {
      assert Debits(ps, txns, l, since, None) == map[];
    }
  }

  /** The UTC day a time falls on, counted from the epoch. */
  function DayOf(t: Time): int { t / 86_400_000_000 }

  ghost function TransfersOn(db: Db, a: AccountId, day: int): map<TxnId, int> {
    map t | t in db.txns && db.txns[t].kind == InternalTransfer && DayOf(db.txns[t].createdAt) == day
            && Total(db.postings, Cell(t, CustomerLedger(a)), Amount) < 0 :: db.txns[t].amount
  }

  ghost function TransfersFrom(db: Db, a: AccountId, day: int): map<TxnId, int> {
    map t | t in db.txns && db.txns[t].kind == InternalTransfer && DayOf(db.txns[t].createdAt) >= day
            && Total(db.postings, Cell(t, CustomerLedger(a)), Amount) < 0 :: db.txns[t].amount
  }

  lemma DayBounds(t: Time, d: int)
    ensures DayOf(t) == d <==> d * DAY <= t < d * DAY + DAY
    ensures DayOf(t) >= d <==> d * DAY <= t
  {}

  lemma CellsAreUnique(db: Db, l: LedgerId)
    requires OnePerCell(db)
    ensures CellsUnique(db.postings, l)
  {
    assert forall t :: Total(db.postings, Cell(t, l), One) <= 1;
  }

  /** The daily total the code checks is the amount of the transfers that debit the account and were
      created on the day of `now` or later, reversed ones included. */
  lemma DailyTotalIs(db: Db, a: AccountId, now: Time)
    requires Inv(db)
    ensures OutgoingSince(db.postings, db.txns, CustomerLedger(a), DayStart(now)) == SumMap(TransfersFrom(db, a, DayOf(now)))
  {
    CellsAreUnique(db, CustomerLedger(a));
    SinceIsDebits(db.postings, db.txns, CustomerLedger(a), DayStart(now));
    forall t | t in db.txns
      ensures DayStart(now) <= db.txns[t].createdAt <==> DayOf(db.txns[t].createdAt) >= DayOf(now)
      ensures db.txns[t].status == Posted || db.txns[t].status == Reversed
    {
      assert TxnBalanced(db, t);
      DayBounds(db.txns[t].createdAt, DayOf(now));
    }
    assert TransfersFrom(db, a, DayOf(now)) == Debits(db.postings, db.txns, CustomerLedger(a), DayStart(now), None);
  }

  /** On every UTC day the transfers out of every account total at most 2,500,000. */
  ghost predicate WithinDailyLimit(db: Db) { forall a, d :: SumMap(TransfersOn(db, a, d)) <= 2_500_000 }

  lemma LimitsAreDaily(db: Db)
    requires Inv(db) && LimitsHold(db)
    ensures WithinDailyLimit(db)
  {
    forall a, d
      ensures SumMap(TransfersOn(db, a, d)) <= 2_500_000
    {
      DayTotalIs(db, a, d);
      assert DayTotal(db, CustomerLedger(a), d) <= DAILY_LIMIT;
    }
  }

  lemma DayTotalIs(db: Db, a: AccountId, d: int)
    requires Inv(db)
    ensures DayTotal(db, CustomerLedger(a), d) == SumMap(TransfersOn(db, a, d))
  {
    CellsAreUnique(db, CustomerLedger(a));
    BetweenIsDebits(db.postings, db.txns, CustomerLedger(a), d * DAY, d * DAY + DAY);
    forall t | t in db.txns
      ensures d * DAY <= db.txns[t].createdAt < d * DAY + DAY <==> DayOf(db.txns[t].createdAt) == d
      ensures db.txns[t].status == Posted || db.txns[t].status == Reversed
    {
      assert TxnBalanced(db, t);
      DayBounds(db.txns[t].createdAt, d);
    }
    assert TransfersOn(db, a, d) == Debits(db.postings, db.txns, CustomerLedger(a), d * DAY, Some(d * DAY + DAY));
  }

  /** No run of operations, whatever their start times, takes any account over the limit on any UTC day. */
  lemma DailyLimitHolds(steps: seq<Step>)
    ensures WithinDailyLimit(Run(INITIAL, steps))
  {
    ReachableIsSafe(steps, "");
    LimitsHoldInRuns(steps);
    LimitsAreDaily(Run(INITIAL, steps));
  }
}
