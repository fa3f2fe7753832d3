/** What a transaction has read under its locks survives every other transaction's commit. */
module Stability {
  import opened Common
  import opened Tables
  import opened Operations
  import opened LedgerInvariant
  import opened LedgerRuns
  import opened Interleaving
  import opened Serializability

  /** Nothing that `w` has locked, or that never changes, differs between the two states. */
  ghost predicate Unaffected(db: Db, db': Db, w: Work) {
    && (forall a | a in db.accounts :: a in db'.accounts && (AccountLock(a) in w.held ==> db'.accounts[a] == db.accounts[a]))
    && (forall l | l in db.ledgers :: l in db'.ledgers && db'.ledgers[l] == db.ledgers[l])
    && (forall t | t in db.txns && TxnLock(t) in w.held ::
          && t in db'.txns && db'.txns[t] == db.txns[t]
          && PostingsOf(db'.postings, t) == PostingsOf(db.postings, t))
    && (forall k | KeyLock(k) in w.held :: (k in db.keys <==> k in db'.keys) && (k in db.keys ==> db'.keys[k] == db.keys[k]))
    && (forall a, since | a in db.accounts && AccountLock(a) in w.held ::
          OutgoingSince(db'.postings, db'.txns, CustomerLedger(a), since) == OutgoingSince(db.postings, db.txns, CustomerLedger(a), since))
  }

  lemma TransferPlanStable(db: Db, db': Db, w: Work, r: TransferRequest)
    requires RowsCurrent(db, w) && Unaffected(db, db', w) && PrepareTransfer(Seen(db, w), r, w.now).Ok?
    ensures PrepareTransfer(Seen(db', w), r, w.now) == PrepareTransfer(Seen(db, w), r, w.now)
  {
    assert r.from in w.rows && r.to in w.rows;
    assert OutgoingSince(db'.postings, db'.txns, CustomerLedger(r.from), DayStart(w.now))
        == OutgoingSince(db.postings, db.txns, CustomerLedger(r.from), DayStart(w.now));
  }

  lemma PlannedStable(db: Db, db': Db, w: Work)
    requires IsMoney(w.op) && w.plan.Some? && RowsCurrent(db, w) && Planned(db, w) && Unaffected(db, db', w)
    ensures Planned(db', w)
  {
    match w.op
    case Transfer(r) => TransferPlanStable(db, db', w, r);
    case KeyedTransfer(r, _, _) => TransferPlanStable(db, db', w, r);
    case DepositTo(_, _, _, _) =>
    case WithdrawFrom(_, _, _, _) =>
    case Reverse(_, t, _, _) => assert t in db.txns;
  }

  lemma ProgressStable(db: Db, db': Db, w: Work)
    requires IsMoney(w.op) && w.plan.Some? && Planned(db, w) && Progress(db, w) && Unaffected(db, db', w)
    ensures Progress(db', w)
  {
    PlanTouches(Seen(db, w), w.op, w.plan.value, w.now);
    assert FinalTxns(db', w) == FinalTxns(db, w);
  }

  lemma BackedStable(db: Db, db': Db, w: Work)
    requires IsMoney(w.op) && w.plan.Some? && Backed(db, w) && Unaffected(db, db', w)
    ensures Backed(db', w)
  {
    PlannedStable(db, db', w);
  }

  lemma ReadStable(db: Db, db': Db, w: Work)
    requires RowsCurrent(db, w) && GoodRead(db, w) && Unaffected(db, db', w)
    ensures GoodRead(db', w)
  {}

  lemma KeyStable(db: Db, db': Db, w: Work)
    requires w.op.KeyedTransfer? && GoodKey(db, w) && Unaffected(db, db', w)
    ensures GoodKey(db', w)
  {}

  lemma ReadyMoneyStable(db: Db, db': Db, w: Work)
    requires IsMoney(w.op) && w.plan.Some? && ReadyMoney(db, w) && Unaffected(db, db', w)
    ensures ReadyMoney(db', w)
  {
    BackedStable(db, db', w);
    ProgressStable(db, db', w);
  }

  lemma ReadyReplayStable(db: Db, db': Db, w: Work)
    requires w.op.KeyedTransfer? && ReadyReplay(db, w) && Unaffected(db, db', w)
    ensures ReadyReplay(db', w)
  {}

  lemma ReadyStable(db: Db, db': Db, w: Work)
    requires Ready(db, w) && Unaffected(db, db', w)
    ensures Ready(db', w)
  {
    if IsMoney(w.op) {
      if w.plan.Some? {
        ReadyMoneyStable(db, db', w);
      } else {
        ReadyReplayStable(db, db', w);
      }
    } else {
      ReadyAdminStable(db, db', w);
    }
  }

  lemma ReadyAdminStable(db: Db, db': Db, w: Work)
    requires (w.op.OpenAccount? || w.op.Close? || w.op.SetStatus?) && ReadyAdmin(db, w)
    ensures ReadyAdmin(db', w)
  {}

  lemma UpdateStable(db: Db, db': Db, w: Work)
    requires (w.op.OpenAccount? || w.op.Close? || w.op.SetStatus?) && GoodUpdate(db, w)
    ensures GoodUpdate(db', w)
  {}

  lemma WriteStable(db: Db, db': Db, w: Work)
    requires IsMoney(w.op) && w.plan.Some? && GoodWrite(db, w) && Unaffected(db, db', w)
    ensures GoodWrite(db', w)
  {
    BackedStable(db, db', w);
    ProgressStable(db, db', w);
  }

  lemma KnowsStable(db: Db, db': Db, w: Work)
    requires Shaped(w) && RowsCurrent(db, w) && Knows(db, w) && Unaffected(db, db', w)
    ensures Knows(db', w)
  {
    if OnKey(w.stage) {
      KeyStable(db, db', w);
    } else if Writing(w.stage) {
      WriteStable(db, db', w);
    } else if w.stage.Commit? {
      ReadyStable(db, db', w);
    } else if w.stage.UpdateAccount? {
      UpdateStable(db, db', w);
    } else {
      ReadStable(db, db', w);
    }
  }

  lemma GoodStable(db: Db, db': Db, w: Work)
    requires Good(db, w) && Unaffected(db, db', w)
    ensures Good(db', w)
  {
    KnowsStable(db, db', w);
    assert RowsCurrent(db', w);
  }

  // ---- what a commit may change ----

  lemma {:induction false} OutgoingSinceFrame(ps: seq<Posting>, qs: seq<Posting>, txns: map<TxnId, Txn>, txns': map<TxnId, Txn>, l: LedgerId, since: Time)
    requires forall p | p in ps ::
               && p.txn in txns && p.txn in txns'
               && (txns'[p.txn] == txns[p.txn] || (txns[p.txn].status == Posted && txns'[p.txn] == txns[p.txn].(status := Reversed)))
    requires forall q | q in qs :: q.ledger != l
    ensures OutgoingSince(ps + qs, txns', l, since) == OutgoingSince(ps, txns, l, since)
  {
    if qs != [] {
      assert (ps + qs)[..|ps + qs| - 1] == ps + qs[..|qs| - 1];
      OutgoingSinceFrame(ps, qs[..|qs| - 1], txns, txns', l, since);
    } else {
      assert ps + qs == ps;
      if ps != [] {
        assert ps[..|ps| - 1] + [] == ps[..|ps| - 1];
        OutgoingSinceFrame(ps[..|ps| - 1], [], txns, txns', l, since);
      }
    }
  }

  ghost predicate FramedRows(db: Db, db': Db, w: Work) {
    && (forall a | a in db.accounts :: a in db'.accounts && (AccountLock(a) !in w.held ==> db'.accounts[a] == db.accounts[a]))
    && (forall a | a in db'.accounts :: a in db.accounts || NewAccountId(w.op) == Some(a))
    && (forall l | l in db.ledgers :: l in db'.ledgers && db'.ledgers[l] == db.ledgers[l])
  }

  ghost predicate FramedTxns(db: Db, db': Db, w: Work) {
    && (forall t | t in db.txns ::
          && t in db'.txns && (TxnLock(t) !in w.held ==> db'.txns[t] == db.txns[t])
          && (db'.txns[t] == db.txns[t] || (db.txns[t].status == Posted && db'.txns[t] == db.txns[t].(status := Reversed))))
    && (forall t | t in db'.txns :: t in db.txns || NewTxnId(w.op) == Some(t))
  }

  ghost predicate FramedKeys(db: Db, db': Db, w: Work) {
    forall k | KeyLock(k) !in w.held :: (k in db.keys <==> k in db'.keys) && (k in db.keys ==> db'.keys[k] == db.keys[k])
  }

  ghost predicate FramedPosts(db: Db, db': Db, w: Work, posts: seq<Posting>) {
    && db'.postings == db.postings + posts
    && (forall p | p in posts :: p.txn !in db.txns && (p.ledger.CustomerLedger? ==> AccountLock(p.ledger.account) in w.held))
  }

  /** A commit changes only rows it holds locks on, adds rows under its own fresh identifiers, and
      marks at most its own original reversed. */
  ghost predicate Framed(db: Db, db': Db, w: Work, posts: seq<Posting>) {
    FramedRows(db, db', w) && FramedTxns(db, db', w) && FramedKeys(db, db', w) && FramedPosts(db, db', w, posts)
  }

  lemma TxnsFramed(db: Db, w: Work)
    requires IsMoney(w.op) && w.plan.Some? && NewTxnId(w.op) == Some(w.plan.value.id) && PlanFacts(db, w)
    requires w.delta.txns == FinalTxns(db, w) && (w.op.Reverse? ==> TxnLock(w.op.target) in w.held)
    ensures FramedTxns(db, Merge(db, w.delta), w)
  {}

  lemma KeysFramed(db: Db, w: Work)
    requires w.plan.Some? && KeyReserved(db, w) && KeysReady(w)
    ensures FramedKeys(db, Merge(db, w.delta), w)
  {}

  lemma RowsFramed(db: Db, w: Work)
    requires RowsCurrent(db, w) && w.delta.ledgers == map[] && forall a | a in w.delta.accounts :: a in w.rows
    ensures FramedRows(db, Merge(db, w.delta), w)
  {}

  lemma MoneyFramed(db: Db, w: Work)
    requires IsMoney(w.op) && w.plan.Some? && Backed(db, w) && w.stage.Commit? && Progress(db, w) && KeysReady(w)
    requires w.plan.value.id !in db.txns
    ensures Framed(db, Merge(db, w.delta), w, w.delta.posts)
  {
    PlanTouches(Seen(db, w), w.op, w.plan.value, w.now);
    MovedWithinRows(w);
    RowsFramed(db, w);
    TxnsFramed(db, w);
    KeysFramed(db, w);
  }

  lemma MovedWithinRows(w: Work)
    requires w.plan.Some? && Moved(w, |w.plan.value.moves|) && forall m | m in w.plan.value.moves :: m.account in w.rows
    ensures forall a | a in w.delta.accounts :: a in w.rows
  {
    forall a | a in w.delta.accounts
      ensures a in w.rows
    {
      var i :| 0 <= i < |w.plan.value.moves| && w.plan.value.moves[i].account == a;
      assert w.plan.value.moves[i] in w.plan.value.moves;
    }
  }

  lemma AdminFramed(db: Db, w: Work)
    requires (w.op.OpenAccount? || w.op.Close? || w.op.SetStatus?) && ReadyAdmin(db, w) && RowsCurrent(db, w) && LedgersNamed(db)
    requires NewAccountId(w.op).Some? ==> NewAccountId(w.op).value !in db.accounts
    ensures Framed(db, Merge(db, w.delta), w, w.delta.posts)
  {
    assert w.delta.accounts.Keys == {w.op.account};
  }

  lemma CommitFramed(db: Db, w: Work)
    requires Good(db, w) && w.stage.Commit? && LedgersNamed(db)
    requires NewTxnId(w.op).Some? ==> NewTxnId(w.op).value !in db.txns
    requires NewAccountId(w.op).Some? ==> NewAccountId(w.op).value !in db.accounts
    ensures Framed(db, Merge(db, w.delta), w, w.delta.posts)
  {
    if !IsMoney(w.op) {
      AdminFramed(db, w);
    } else if w.plan.Some? {
      PlanTouches(Seen(db, w), w.op, w.plan.value, w.now);
      MoneyFramed(db, w);
    }
  }

  /** A commit leaves every other open transaction's knowledge intact. */
  lemma FramedIsUnaffected(db: Db, db': Db, w: Work, posts: seq<Posting>, other: Work)
    requires Framed(db, db', w, posts) && PostingsRefer(db) && w.held !! other.held
    ensures Unaffected(db, db', other)
  {
    forall t | t in db.txns && TxnLock(t) in other.held
      ensures PostingsOf(db'.postings, t) == PostingsOf(db.postings, t)
    {
      PostingsOfAppend(db.postings, posts, t);
      PostingsOfNone(posts, t);
    }
    forall a, since | a in db.accounts && AccountLock(a) in other.held
      ensures OutgoingSince(db'.postings, db'.txns, CustomerLedger(a), since) == OutgoingSince(db.postings, db.txns, CustomerLedger(a), since)
    {
      OutgoingSinceFrame(db.postings, posts, db.txns, db'.txns, CustomerLedger(a), since);
    }
  }

  /** Purging expired keys affects no open transaction that holds a key. */
  lemma PurgeUnaffected(db: Db, clock: Time, other: Work)
    requires forall k | Expired(db.keys, k, clock) :: KeyLock(k) !in other.held
    ensures Unaffected(db, db.(keys := UnexpiredKeys(db.keys, clock)), other)
  {}
}
