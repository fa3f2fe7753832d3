/** Running balances, statement balances and money-movement buckets: three views of one posting log. */
module Statement {
  import opened Common
  import opened Tables
  import opened Operations
  import opened LedgerInvariant
  import opened LedgerRuns
  import opened History

  // ---- an account's history ----

  function KeyFor(txns: map<TxnId, Txn>, t: TxnId): Key
    requires t in txns
  {
    Key(txns[t].createdAt, t)
  }

  /** The transactions with a posting on the ledger account. */
  function KeysOn(ps: seq<Posting>, txns: map<TxnId, Txn>, l: LedgerId): set<Key> {
    set p | p in ps && p.ledger == l && p.txn in txns :: KeyFor(txns, p.txn)
  }

  /** A transaction has at most one posting per ledger account, so the cell total is that posting's amount. */
  function AmountsOn(ps: seq<Posting>, txns: map<TxnId, Txn>, l: LedgerId): map<Key, int> {
    map k | k in KeysOn(ps, txns, l) :: Total(ps, Cell(k.id, l), Amount)
  }

  function HistoryOf(db: Db, a: AccountId): map<Key, Line> {
    var l := CustomerLedger(a);
    if l !in db.ledgers then map[]
    else
      map k | k in KeysOn(db.postings, db.txns, l) && k.id in db.txns ::
        Line(db.txns[k.id].kind, db.txns[k.id].status, db.txns[k.id].amount, Total(db.postings, Cell(k.id, l), Amount), db.txns[k.id].postedAt)
  }

  // ---- sums over sets of rows ----

  ghost function SumOf(w: map<Key, int>, s: set<Key>): int
    requires s <= w.Keys
  {
    if s == {} then 0 else var k :| k in s; w[k] + SumOf(w, s - {k})
  }

  lemma {:induction false} SumRemove(w: map<Key, int>, s: set<Key>, k: Key)
    requires s <= w.Keys && k in s
    ensures SumOf(w, s) == w[k] + SumOf(w, s - {k})
  {
    var l :| l in s && SumOf(w, s) == w[l] + SumOf(w, s - {l});
    if l != k {
      SumRemove(w, s - {l}, k);
      SumRemove(w, s - {k}, l);
      assert s - {l} - {k} == s - {k} - {l};
    }
  }

  lemma {:induction false} SumSame(w: map<Key, int>, w': map<Key, int>, s: set<Key>)
    requires s <= w.Keys && s <= w'.Keys && forall k | k in s :: w[k] == w'[k]
    ensures SumOf(w, s) == SumOf(w', s)
  {
    if k :| k in s {
      SumRemove(w, s, k);
      SumRemove(w', s, k);
      SumSame(w, w', s - {k});
    }
  }

  lemma {:induction false} SumUnion(w: map<Key, int>, s: set<Key>, t: set<Key>)
    requires s <= w.Keys && t <= w.Keys && s !! t
    ensures SumOf(w, s + t) == SumOf(w, s) + SumOf(w, t)
  {
    if k :| k in s {
      SumRemove(w, s, k);
      SumRemove(w, s + t, k);
      assert (s + t) - {k} == (s - {k}) + t;
      SumUnion(w, s - {k}, t);
    } else {
      assert s + t == t;
    }
  }

  function SumSeq(w: map<Key, int>, r: seq<Key>): int
    requires forall k | k in r :: k in w
  {
    if r == [] then 0 else w[r[0]] + SumSeq(w, r[1..])
  }

  lemma {:induction false} SumListed(w: map<Key, int>, s: set<Key>)
    requires s <= w.Keys
    ensures SumSeq(w, Descending(s)) == SumOf(w, s)
  {
    if s != {} {
      SumRemove(w, s, Latest(s));
      SumListed(w, s - {Latest(s)});
      assert Descending(s)[1..] == Descending(s - {Latest(s)});
    }
  }

  // ---- statements ----

  function Amounts(h: map<Key, Line>): map<Key, int> { map k | k in h :: h[k].signed }

  function EarlierThan(h: map<Key, Line>, t: Time): set<Key> { set k | k in h && k.at < t }

  ghost function Opening(h: map<Key, Line>, from: Option<Time>): int {
    match from case None => 0 case Some(t) => SumOf(Amounts(h), EarlierThan(h, t))
  }

  ghost function Closing(h: map<Key, Line>, to: Option<Time>): int {
    match to case None => SumOf(Amounts(h), h.Keys) case Some(t) => SumOf(Amounts(h), EarlierThan(h, t))
  }

  /** The window function: the sum of all rows up to and including this one, whatever the filter. */
  ghost function BalanceAfter(h: map<Key, Line>, k: Key): int {
    SumOf(Amounts(h), set x | x in h && !Before(k, x))
  }

  /** Rows of the listing query. */
  ghost function Listing(h: map<Key, Line>, f: Filter, cursor: Option<Key>, limit: nat): seq<Item> {
    var ks := Descending(Below(Matching(h, f), cursor));
    var taken := if |ks| > limit then ks[..limit] else ks;
    seq(|taken|, i requires 0 <= i < |taken| => assert taken[i] in ks; Item(taken[i], h[taken[i]], BalanceAfter(h, taken[i])))
  }

  /** The page built from the query result is the page the walk is made of. */
  lemma PageFromListing(h: map<Key, Line>, f: Filter, cursor: Option<Key>, size: nat)
    ensures Cut(KeysOf(Listing(h, f, cursor, size + 1)), size) == PageOf(Matching(h, f), cursor, size)
  {
    var ks := Descending(Below(Matching(h, f), cursor));
    assert KeysOf(Listing(h, f, cursor, size + 1)) == if |ks| > size + 1 then ks[..size + 1] else ks;
  }

  predicate RangeOnly(f: Filter) { f.kind.None? && f.status.None? && f.direction.None? }

  /** What `parseTransactionDateRange` accepts. */
  predicate ValidRange(f: Filter) { f.from.Some? && f.to.Some? ==> f.from.value < f.to.value }

  lemma RangeIsDifference(h: map<Key, Line>, f: Filter)
    requires RangeOnly(f) && ValidRange(f)
    ensures SumOf(Amounts(h), Matching(h, f)) == Closing(h, f.to) - Opening(h, f.from)
  {
    var earlier := if f.from.Some? then EarlierThan(h, f.from.value) else {};
    var upto := if f.to.Some? then EarlierThan(h, f.to.value) else h.Keys;
    assert earlier + Matching(h, f) == upto;
    SumUnion(Amounts(h), earlier, Matching(h, f));
  }

  /** The amounts a client collects page by page add up to closing minus opening. */
  lemma ListedAmountsAddUp(h: map<Key, Line>, f: Filter, size: nat)
    requires RangeOnly(f) && ValidRange(f) && size > 0
    ensures var listed := Walk(Matching(h, f), None, size);
            && (forall k :: k in listed <==> k in Matching(h, f))
            && SumSeq(Amounts(h), listed) == Closing(h, f.to) - Opening(h, f.from)
  {
    HistoryPagesAreComplete(h, f, size);
    SumListed(Amounts(h), Matching(h, f));
    RangeIsDifference(h, f);
  }

  ghost predicate Follows(h: map<Key, Line>, k: Key, l: Key) { k in h && BalanceAfter(h, k) == BalanceAfter(h, l) + h[k].signed }

  /** The newest row's running balance is the closing balance, the oldest row's starts from the
      opening balance, and each row's follows from the next older one. */
  lemma RunningBalances(h: map<Key, Line>, f: Filter, size: nat)
    requires RangeOnly(f) && ValidRange(f) && size > 0 && Matching(h, f) != {}
    ensures var listed := Walk(Matching(h, f), None, size);
            && listed != []
            && BalanceAfter(h, listed[0]) == Closing(h, f.to)
            && (var k := listed[|listed| - 1]; k in h && BalanceAfter(h, k) == Opening(h, f.from) + h[k].signed)
            && forall i | 0 <= i < |listed| - 1 :: Follows(h, listed[i], listed[i + 1])
  {
    HistoryPagesAreComplete(h, f, size);
    var listed := Descending(Matching(h, f));
    NewestCloses(h, f, listed);
    OldestOpens(h, f, listed);
    forall i | 0 <= i < |listed| - 1
      ensures Follows(h, listed[i], listed[i + 1])
    {
      NeighboursFollow(h, f, listed, i);
    }
  }

  lemma NewestCloses(h: map<Key, Line>, f: Filter, listed: seq<Key>)
    requires RangeOnly(f) && ValidRange(f) && Lists(listed, Matching(h, f)) && listed != []
    ensures BalanceAfter(h, listed[0]) == Closing(h, f.to)
  {
    var k := listed[0];
    var upto := if f.to.Some? then EarlierThan(h, f.to.value) else h.Keys;
    assert k in Matching(h, f);
    forall x | x in h
      ensures !Before(k, x) <==> x in upto
    {
      if x in Matching(h, f) { assert x in listed; }
    }
    assert (set x | x in h && !Before(k, x)) == upto;
  }

  lemma OldestOpens(h: map<Key, Line>, f: Filter, listed: seq<Key>)
    requires RangeOnly(f) && ValidRange(f) && Lists(listed, Matching(h, f)) && listed != []
    ensures var k := listed[|listed| - 1]; k in h && BalanceAfter(h, k) == Opening(h, f.from) + h[k].signed
  {
    var k := listed[|listed| - 1];
    var earlier := if f.from.Some? then EarlierThan(h, f.from.value) else {};
    var upto := set x | x in h && !Before(k, x);
    assert k in Matching(h, f);
    forall x | x in h && x != k
      ensures x in upto <==> x in earlier
    {
      if x in Matching(h, f) { assert x in listed; }
    }
    SumRemove(Amounts(h), upto, k);
    assert upto - {k} == earlier;
  }

  lemma NeighboursFollow(h: map<Key, Line>, f: Filter, listed: seq<Key>, i: nat)
    requires RangeOnly(f) && ValidRange(f) && Lists(listed, Matching(h, f)) && i < |listed| - 1
    ensures Follows(h, listed[i], listed[i + 1])
  {
    var k, l := listed[i], listed[i + 1];
    var upto := set x | x in h && !Before(k, x);
    var below := set x | x in h && !Before(l, x);
    assert k in Matching(h, f) && l in Matching(h, f);
    forall x | x in h && x != k
      ensures x in upto <==> x in below
    {
      if x in Matching(h, f) { assert x in listed; }
    }
    SumRemove(Amounts(h), upto, k);
    assert upto - {k} == below;
  }

  // ---- an unbounded statement closes at the cached balance ----

  lemma FirstOfItsCell(ps: seq<Posting>, txns: map<TxnId, Txn>, l: LedgerId)
    requires ps != [] && CellsUnique(ps, l) && ps[|ps| - 1].ledger == l && ps[|ps| - 1].txn in txns
    ensures var prev, t := ps[..|ps| - 1], ps[|ps| - 1].txn;
            KeyFor(txns, t) !in KeysOn(prev, txns, l) && Total(prev, Cell(t, l), Amount) == 0
  {
    EarlierCellIsEmpty(ps, l);
  }

  /** Summing row by row is summing the ledger account. */
  lemma {:induction false} RowsSumToLedger(ps: seq<Posting>, txns: map<TxnId, Txn>, l: LedgerId)
    requires CellsUnique(ps, l) && forall p | p in ps :: p.txn in txns
    ensures SumOf(AmountsOn(ps, txns, l), KeysOn(ps, txns, l)) == Total(ps, OnLedger(l), Amount)
  {
    if ps != [] {
      var prev := ps[..|ps| - 1];
      forall t ensures Total(prev, Cell(t, l), One) <= 1 {
        assert Total(ps, Cell(t, l), One) <= 1;
      }
      RowsSumToLedger(prev, txns, l);
      OneMoreRow(ps, txns, l);
    }
  }

  lemma OneMoreRow(ps: seq<Posting>, txns: map<TxnId, Txn>, l: LedgerId)
    requires ps != [] && CellsUnique(ps, l) && forall p | p in ps :: p.txn in txns
    ensures var prev, last := ps[..|ps| - 1], ps[|ps| - 1];
            SumOf(AmountsOn(ps, txns, l), KeysOn(ps, txns, l)) ==
            SumOf(AmountsOn(prev, txns, l), KeysOn(prev, txns, l)) + if last.ledger == l then last.amount else 0
  {
    var prev, last := ps[..|ps| - 1], ps[|ps| - 1];
    var w, w', s, s' := AmountsOn(prev, txns, l), AmountsOn(ps, txns, l), KeysOn(prev, txns, l), KeysOn(ps, txns, l);
    KeysGrow(ps, txns, l);
    if last.ledger == l {
      var k := KeyFor(txns, last.txn);
      FirstOfItsCell(ps, txns, l);
      SumRemove(w', s', k);
      assert s' - {k} == s;
    } else {
      assert s' == s;
    }
    SumSame(w, w', s);
  }

  lemma KeysGrow(ps: seq<Posting>, txns: map<TxnId, Txn>, l: LedgerId)
    requires ps != [] && forall p | p in ps :: p.txn in txns
    ensures var prev, last := ps[..|ps| - 1], ps[|ps| - 1];
            KeysOn(ps, txns, l) == KeysOn(prev, txns, l) + if last.ledger == l then {KeyFor(txns, last.txn)} else {}
  {
    assert ps == ps[..|ps| - 1] + [ps[|ps| - 1]];
  }

  lemma ClosesAtCachedBalance(db: Db, a: AccountId)
    requires Inv(db) && a in db.accounts
    ensures Closing(HistoryOf(db, a), None) == db.accounts[a].balance
  {
    var h, l := HistoryOf(db, a), CustomerLedger(a);
    assert AccountAgrees(db, a);
    assert forall t :: Total(db.postings, Cell(t, l), One) <= 1;
    RowsSumToLedger(db.postings, db.txns, l);
    assert h.Keys == KeysOn(db.postings, db.txns, l);
    SumSame(Amounts(h), AmountsOn(db.postings, db.txns, l), h.Keys);
  }

  /** The history holds one row for each transaction with a posting on the account's ledger, made of the transaction
      and that posting. */
  lemma HistoryIsPostings(db: Db, a: AccountId, k: Key)
    requires Inv(db)
    ensures var h, l := HistoryOf(db, a), CustomerLedger(a);
      && (k in h <==> k.id in db.txns && k.at == db.txns[k.id].createdAt && Total(db.postings, Cell(k.id, l), One) == 1)
      && (k in h ==>
            && h[k] == Line(db.txns[k.id].kind, db.txns[k.id].status, db.txns[k.id].amount, h[k].signed, db.txns[k.id].postedAt)
            && Posting(k.id, l, h[k].signed) in db.postings)
  {
    var h, l := HistoryOf(db, a), CustomerLedger(a);
    assert Total(db.postings, Cell(k.id, l), One) <= 1;
    if k in h {
      var p :| p in db.postings && p.ledger == l && p.txn in db.txns && KeyFor(db.txns, p.txn) == k;
      CountIsPositive(db.postings, Cell(k.id, l), p);
      CellHoldsPosting(db.postings, k.id, l);
    } else if Total(db.postings, Cell(k.id, l), One) == 1 {
      CellHoldsPosting(db.postings, k.id, l);
    }
  }

  lemma {:induction false} CellHoldsPosting(ps: seq<Posting>, t: TxnId, l: LedgerId)
    requires Total(ps, Cell(t, l), One) == 1
    ensures Posting(t, l, Total(ps, Cell(t, l), Amount)) in ps
  {
    var prev, last := ps[..|ps| - 1], ps[|ps| - 1];
    if last.txn == t && last.ledger == l {
      EmptyCell(prev, t, l);
      assert last in ps;
    } else {
      CellHoldsPosting(prev, t, l);
      assert forall p | p in prev :: p in ps;
    }
  }

  lemma EmptyCell(ps: seq<Posting>, t: TxnId, l: LedgerId)
    requires Total(ps, Cell(t, l), One) <= 0
    ensures Total(ps, Cell(t, l), Amount) == 0
  {
    forall p | p in ps
      ensures !Selects(Cell(t, l), p)
    {
      if Selects(Cell(t, l), p) { CountIsPositive(ps, Cell(t, l), p); }
    }
    TotalNone(ps, Cell(t, l), Amount);
  }

  // ---- money movement ----

  datatype Interval = Day | Week
  datatype Bucket = Bucket(start: Time, incoming: int, outgoing: int)

  function Width(i: Interval): Time { match i case Day => DAY case Week => 7 * DAY }

  /** `date_trunc` in a zone of fixed offset: `origin` is one day's or one week's start. */
  function PeriodOf(i: Interval, origin: Time, t: Time): int { (t - origin) / Width(i) }
  function Truncate(i: Interval, origin: Time, t: Time): Time { origin + Width(i) * PeriodOf(i, origin, t) }

  lemma SamePeriod(i: Interval, origin: Time, t: Time, u: Time, n: int)
    ensures Truncate(i, origin, t) == Truncate(i, origin, u) + n * Width(i) <==> PeriodOf(i, origin, t) == PeriodOf(i, origin, u) + n
  {}

  lemma PeriodsAscend(i: Interval, origin: Time, t: Time, u: Time)
    requires t <= u
    ensures PeriodOf(i, origin, t) <= PeriodOf(i, origin, u)
  {}

  predicate Moved(line: Line, from: Time, to: Time) {
    (line.status == Posted || line.status == Reversed) && line.postedAt.Some? && from <= line.postedAt.value < to
  }

  function MovedRows(h: map<Key, Line>, from: Time, to: Time): set<Key> { set k | k in h && Moved(h[k], from, to) }

  function In(h: map<Key, Line>): map<Key, int> { map k | k in h :: if h[k].signed > 0 then h[k].signed else 0 }
  function Out(h: map<Key, Line>): map<Key, int> { map k | k in h :: if h[k].signed < 0 then -h[k].signed else 0 }

  /** The rows the join puts into the `n`-th period of the series. */
  function InBucket(h: map<Key, Line>, i: Interval, origin: Time, from: Time, to: Time, n: nat): set<Key> {
    set k | k in MovedRows(h, from, to) && Truncate(i, origin, h[k].postedAt.value) == Truncate(i, origin, from) + n * Width(i)
  }

  /** `generate_series` from the period of `from` to the period of the last microsecond before `to`. */
  function Periods(i: Interval, origin: Time, from: Time, to: Time): (n: nat)
    requires from < to
  {
    PeriodsAscend(i, origin, from, to - 1);
    PeriodOf(i, origin, to - 1) - PeriodOf(i, origin, from) + 1
  }

  ghost function Buckets(h: map<Key, Line>, i: Interval, origin: Time, from: Time, to: Time, n: nat): (bs: seq<Bucket>)
    ensures |bs| == n
  {
    if n == 0 then [] else Buckets(h, i, origin, from, to, n - 1) + [BucketAt(h, i, origin, from, to, n - 1)]
  }

  ghost function BucketAt(h: map<Key, Line>, i: Interval, origin: Time, from: Time, to: Time, n: nat): Bucket {
    var rows := InBucket(h, i, origin, from, to, n);
    Bucket(Truncate(i, origin, from) + n * Width(i), SumOf(In(h), rows), SumOf(Out(h), rows))
  }

  function TotalIn(bs: seq<Bucket>): int { if bs == [] then 0 else TotalIn(bs[..|bs| - 1]) + bs[|bs| - 1].incoming }
  function TotalOut(bs: seq<Bucket>): int { if bs == [] then 0 else TotalOut(bs[..|bs| - 1]) + bs[|bs| - 1].outgoing }

  /** The handler's accumulation loop. */
  method MoneyMovement(rows: seq<Bucket>) returns (buckets: seq<Bucket>, moneyIn: int, moneyOut: int)
    ensures buckets == rows && moneyIn == TotalIn(rows) && moneyOut == TotalOut(rows)
  {
    buckets, moneyIn, moneyOut := [], 0, 0;
    for i := 0 to |rows|
      invariant buckets == rows[..i] && moneyIn == TotalIn(rows[..i]) && moneyOut == TotalOut(rows[..i])
    {
      assert rows[..i + 1][..i] == rows[..i];
      buckets := buckets + [Bucket(rows[i].start, rows[i].incoming, rows[i].outgoing)];
      moneyIn := moneyIn + rows[i].incoming;
      moneyOut := moneyOut + rows[i].outgoing;
    }
    assert rows[..|rows|] == rows;
  }

  function UpToBucket(h: map<Key, Line>, i: Interval, origin: Time, from: Time, to: Time, n: nat): set<Key> {
    set k | k in MovedRows(h, from, to) && PeriodOf(i, origin, h[k].postedAt.value) < PeriodOf(i, origin, from) + n
  }

  lemma NoEarlierBucket(h: map<Key, Line>, i: Interval, origin: Time, from: Time, to: Time)
    ensures UpToBucket(h, i, origin, from, to, 0) == {}
  {
    forall k | k in MovedRows(h, from, to)
      ensures PeriodOf(i, origin, from) <= PeriodOf(i, origin, h[k].postedAt.value)
    {
      PeriodsAscend(i, origin, from, h[k].postedAt.value);
    }
  }

  lemma OneMoreBucket(h: map<Key, Line>, i: Interval, origin: Time, from: Time, to: Time, n: nat)
    ensures var before, rows := UpToBucket(h, i, origin, from, to, n), InBucket(h, i, origin, from, to, n);
            UpToBucket(h, i, origin, from, to, n + 1) == before + rows && before !! rows
  {
    forall k | k in MovedRows(h, from, to)
      ensures k in InBucket(h, i, origin, from, to, n) <==> PeriodOf(i, origin, h[k].postedAt.value) == PeriodOf(i, origin, from) + n
    {
      SamePeriod(i, origin, h[k].postedAt.value, from, n);
    }
  }

  /** The sum of the first `n` buckets, whatever is being summed. */
  ghost function FirstBuckets(w: map<Key, int>, h: map<Key, Line>, i: Interval, origin: Time, from: Time, to: Time, n: nat): int
    requires h.Keys <= w.Keys
  {
    if n == 0 then 0 else FirstBuckets(w, h, i, origin, from, to, n - 1) + SumOf(w, InBucket(h, i, origin, from, to, n - 1))
  }

  lemma {:induction false} BucketsAddUp(w: map<Key, int>, h: map<Key, Line>, i: Interval, origin: Time, from: Time, to: Time, n: nat)
    requires h.Keys <= w.Keys
    ensures FirstBuckets(w, h, i, origin, from, to, n) == SumOf(w, UpToBucket(h, i, origin, from, to, n))
  {
    if n == 0 {
      NoEarlierBucket(h, i, origin, from, to);
    } else {
      BucketsAddUp(w, h, i, origin, from, to, n - 1);
      OneMoreBucket(h, i, origin, from, to, n - 1);
      SumUnion(w, UpToBucket(h, i, origin, from, to, n - 1), InBucket(h, i, origin, from, to, n - 1));
    }
  }

  lemma {:induction false} TotalsAreBuckets(h: map<Key, Line>, i: Interval, origin: Time, from: Time, to: Time, n: nat)
    ensures TotalIn(Buckets(h, i, origin, from, to, n)) == FirstBuckets(In(h), h, i, origin, from, to, n)
    ensures TotalOut(Buckets(h, i, origin, from, to, n)) == FirstBuckets(Out(h), h, i, origin, from, to, n)
  {
    if n > 0 {
      TotalsAreBuckets(h, i, origin, from, to, n - 1);
      TotalsAppend(Buckets(h, i, origin, from, to, n - 1), BucketAt(h, i, origin, from, to, n - 1));
    }
  }

  lemma TotalsAppend(bs: seq<Bucket>, b: Bucket)
    ensures TotalIn(bs + [b]) == TotalIn(bs) + b.incoming && TotalOut(bs + [b]) == TotalOut(bs) + b.outgoing
  {
    assert (bs + [b])[..|bs|] == bs;
  }

  /** The buckets partition the range: together they hold every movement in it exactly once. */
  lemma BucketsPartitionRange(h: map<Key, Line>, i: Interval, origin: Time, from: Time, to: Time)
    requires from < to
    ensures var bs := Buckets(h, i, origin, from, to, Periods(i, origin, from, to));
            TotalIn(bs) == SumOf(In(h), MovedRows(h, from, to)) && TotalOut(bs) == SumOf(Out(h), MovedRows(h, from, to))
  {
    var n := Periods(i, origin, from, to);
    TotalsAreBuckets(h, i, origin, from, to, n);
    BucketsAddUp(In(h), h, i, origin, from, to, n);
    BucketsAddUp(Out(h), h, i, origin, from, to, n);
    forall k | k in MovedRows(h, from, to)
      ensures k in UpToBucket(h, i, origin, from, to, n)
    {
      PeriodsAscend(i, origin, h[k].postedAt.value, to - 1);
    }
    assert UpToBucket(h, i, origin, from, to, n) == MovedRows(h, from, to);
  }

  lemma {:induction false} InMinusOut(h: map<Key, Line>, s: set<Key>)
    requires s <= h.Keys
    ensures SumOf(Amounts(h), s) == SumOf(In(h), s) - SumOf(Out(h), s)
  {
    if k :| k in s {
      SumRemove(Amounts(h), s, k);
      SumRemove(In(h), s, k);
      SumRemove(Out(h), s, k);
      InMinusOut(h, s - {k});
    }
  }

  /** Every row is posted, at the time it was created. */
  lemma MovedIsMatching(db: Db, a: AccountId, from: Time, to: Time)
    requires Inv(db)
    ensures MovedRows(HistoryOf(db, a), from, to) == Matching(HistoryOf(db, a), Filter(Some(from), Some(to), None, None, None))
  {
    var h := HistoryOf(db, a);
    forall k | k in h
      ensures (h[k].status == Posted || h[k].status == Reversed) && h[k].postedAt == Some(k.at)
    {
      assert TxnBalanced(db, k.id);
    }
  }

  /** Money in minus money out is the statement's closing minus opening balance. */
  lemma MovementIsBalanceChange(db: Db, a: AccountId, i: Interval, origin: Time, from: Time, to: Time)
    requires Inv(db) && from < to
    ensures var h := HistoryOf(db, a);
            var bs := Buckets(h, i, origin, from, to, Periods(i, origin, from, to));
            TotalIn(bs) - TotalOut(bs) == Closing(h, Some(to)) - Opening(h, Some(from))
  {
    var h := HistoryOf(db, a);
    var f := Filter(Some(from), Some(to), None, None, None);
    BucketsPartitionRange(h, i, origin, from, to);
    MovedIsMatching(db, a, from, to);
    InMinusOut(h, MovedRows(h, from, to));
    RangeIsDifference(h, f);
  }

  /** The length of a bucket, in microseconds. */
  function Length(i: Interval): Time { if i == Day then 86_400_000_000 else 604_800_000_000 }

  /** The rows that moved money in a bucket's span, cut to the range. */
  ghost function InSpan(h: map<Key, Line>, from: Time, to: Time, start: Time, length: Time): set<Key> {
    set k | k in h && (h[k].status == Posted || h[k].status == Reversed) && h[k].postedAt.Some?
            && from <= h[k].postedAt.value < to && start <= h[k].postedAt.value < start + length
  }

  /** The buckets start on whole days or weeks and follow one another without a gap, from the one `from` falls in to the
      one the last moment before `to` falls in. */
  lemma BucketsCoverRange(h: map<Key, Line>, i: Interval, origin: Time, from: Time, to: Time, n: nat)
    requires from < to && n < Periods(i, origin, from, to)
    ensures var bs := Buckets(h, i, origin, from, to, Periods(i, origin, from, to));
      && |bs| > n && (bs[0].start - origin) % Length(i) == 0 && bs[n].start == bs[0].start + n * Length(i)
      && bs[0].start <= from < bs[0].start + Length(i) && bs[|bs| - 1].start < to <= bs[|bs| - 1].start + Length(i)
  {
    var m := Periods(i, origin, from, to);
    StartOf(h, i, origin, from, to, m, 0);
    StartOf(h, i, origin, from, to, m, m - 1);
    StartOf(h, i, origin, from, to, m, n);
    SeriesSpansRange(i, origin, from, to);
  }

  lemma StartOf(h: map<Key, Line>, i: Interval, origin: Time, from: Time, to: Time, m: nat, n: nat)
    requires n < m
    ensures Buckets(h, i, origin, from, to, m)[n].start == Truncate(i, origin, from) + n * Length(i)
  {
    BucketsAt(h, i, origin, from, to, m, n);
    TruncateBounds(i, origin, from);
  }

  /** Each bucket sums the credits and the debits of its own span. */
  lemma BucketIsItsSpan(h: map<Key, Line>, i: Interval, origin: Time, from: Time, to: Time, n: nat)
    requires from < to && n < Periods(i, origin, from, to)
    ensures var b := Buckets(h, i, origin, from, to, Periods(i, origin, from, to))[n];
      && b.incoming == SumOf(In(h), InSpan(h, from, to, b.start, Length(i)))
      && b.outgoing == SumOf(Out(h), InSpan(h, from, to, b.start, Length(i)))
  {
    var m := Periods(i, origin, from, to);
    StartOf(h, i, origin, from, to, m, n);
    BucketsAt(h, i, origin, from, to, m, n);
    InBucketIsInSpan(h, i, origin, from, to, n);
  }

  lemma {:induction false} BucketsAt(h: map<Key, Line>, i: Interval, origin: Time, from: Time, to: Time, m: nat, n: nat)
    requires n < m
    ensures Buckets(h, i, origin, from, to, m)[n] == BucketAt(h, i, origin, from, to, n)
  {
    if n < m - 1 {
      BucketsAt(h, i, origin, from, to, m - 1, n);
    }
  }

  /** A truncated time is the start of its own day or week. */
  lemma TruncateBounds(i: Interval, origin: Time, t: Time)
    ensures Width(i) == Length(i) && Truncate(i, origin, t) <= t < Truncate(i, origin, t) + Length(i)
    ensures (Truncate(i, origin, t) - origin) % Length(i) == 0
  {
    if i == Day {
      assert (86_400_000_000 * PeriodOf(i, origin, t)) % 86_400_000_000 == 0;
    } else {
      assert (604_800_000_000 * PeriodOf(i, origin, t)) % 604_800_000_000 == 0;
    }
  }

  lemma LastPeriod(i: Interval, origin: Time, from: Time, to: Time)
    requires from < to
    ensures Truncate(i, origin, from) + (Periods(i, origin, from, to) - 1) * Length(i) == Truncate(i, origin, to - 1)
  {
    TruncateBounds(i, origin, from);
    assert Periods(i, origin, from, to) - 1 == PeriodOf(i, origin, to - 1) - PeriodOf(i, origin, from);
  }

  lemma SeriesSpansRange(i: Interval, origin: Time, from: Time, to: Time)
    requires from < to
    ensures var first, last := Truncate(i, origin, from), Truncate(i, origin, from) + (Periods(i, origin, from, to) - 1) * Length(i);
      && (first - origin) % Length(i) == 0 && first <= from < first + Length(i) && last < to <= last + Length(i)
  {
    TruncateBounds(i, origin, from);
    TruncateBounds(i, origin, to - 1);
    LastPeriod(i, origin, from, to);
  }

  lemma InBucketIsInSpan(h: map<Key, Line>, i: Interval, origin: Time, from: Time, to: Time, n: nat)
    ensures var start := Truncate(i, origin, from) + n * Length(i);
            InBucket(h, i, origin, from, to, n) == InSpan(h, from, to, start, Length(i))
  {
    forall k | k in MovedRows(h, from, to)
      ensures k in InBucket(h, i, origin, from, to, n) <==>
              Truncate(i, origin, from) + n * Length(i) <= h[k].postedAt.value < Truncate(i, origin, from) + n * Length(i) + Length(i)
    {
      PeriodIsSpan(i, origin, h[k].postedAt.value, from, n);
    }
  }

  lemma PeriodIsSpan(i: Interval, origin: Time, t: Time, from: Time, n: nat)
    ensures var start := Truncate(i, origin, from) + n * Length(i);
            Truncate(i, origin, t) == Truncate(i, origin, from) + n * Width(i) <==> start <= t < start + Length(i)
  {
    SamePeriod(i, origin, t, from, n);
  }
}
