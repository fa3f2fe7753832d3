/** The reconciliation report over an arbitrary, possibly corrupted, database. */
module Reconciliation {
  import opened Common
  import opened Tables
  import opened Operations
  import opened LedgerInvariant
  import opened LedgerRuns

  datatype Issue =
    | MissingLedgerAccount(account: AccountId, currency: string, cached: int, posted: int)
    | BalanceDrift(account: AccountId, currency: string, cached: int, posted: int)
    | InsufficientPostings(txn: TxnId, count: int, total: int)
    | UnbalancedTransaction(txn: TxnId, count: int, total: int)
    | DuplicateReversal(txn: TxnId, reversals: nat)

  datatype Report = Report(consistent: bool, issues: seq<Issue>)

  // ---- the three queries ----

  function LedgerBalance(db: Db, a: AccountId): int {
    if CustomerLedger(a) in db.ledgers then Total(db.postings, OnLedger(CustomerLedger(a)), Amount) else 0
  }

  predicate Drifts(db: Db, a: AccountId)
    requires a in db.accounts
  {
    CustomerLedger(a) !in db.ledgers || db.accounts[a].balance != LedgerBalance(db, a)
  }

  /** Some posting of `t` is on the customer ledger of the account; without an account, always. */
  predicate Touches(db: Db, t: TxnId, scope: Option<AccountId>) {
    match scope
    case None => true
    case Some(a) => CustomerLedger(a) in db.ledgers && exists p | p in db.postings :: p.txn == t && p.ledger == CustomerLedger(a)
  }

  predicate Final(row: Txn) { row.status == Posted || row.status == Reversed }

  function Count(db: Db, t: TxnId): int { Total(db.postings, OfTxn(t), One) }
  function Sum(db: Db, t: TxnId): int { Total(db.postings, OfTxn(t), Amount) }

  predicate Unsound(db: Db, t: TxnId) { Count(db, t) < 2 || Sum(db, t) != 0 }

  function ReversalsOf(db: Db, o: TxnId): set<TxnId> { set r | r in db.txns && db.txns[r].reversalOf == Some(o) }

  predicate InScope(scope: Option<AccountId>, a: AccountId) { scope == None || scope == Some(a) }

  function ScopedAccounts(db: Db, scope: Option<AccountId>): set<AccountId> { set a | a in db.accounts && InScope(scope, a) }
  function ScopedTxns(db: Db, scope: Option<AccountId>): set<TxnId> { set t | t in db.txns && Final(db.txns[t]) && Touches(db, t, scope) }

  function BadAccounts(db: Db, scope: Option<AccountId>): set<AccountId> { set a | a in ScopedAccounts(db, scope) && Drifts(db, a) }
  function BadTxns(db: Db, scope: Option<AccountId>): set<TxnId> { set t | t in ScopedTxns(db, scope) && Unsound(db, t) }

  function BadReversals(db: Db, scope: Option<AccountId>): set<TxnId> {
    set o | o in db.txns && Touches(db, o, scope) && |ReversalsOf(db, o)| > 1
  }

  predicate Fits(x: int) { -MAX_BIGINT - 1 <= x <= MAX_BIGINT }

  /** The sums are cast to `bigint`, so a query fails when a group it visits has a sum too large. */
  predicate SumsFit(db: Db, scope: Option<AccountId>) {
    && (forall a | a in ScopedAccounts(db, scope) :: Fits(LedgerBalance(db, a)))
    && (forall t | t in ScopedTxns(db, scope) :: Fits(Sum(db, t)))
  }

  // ---- result order: by rank, then ID ----

  predicate NotAfter(rank: map<nat, int>, x: nat, y: nat)
    requires x in rank && y in rank
  {
    rank[x] < rank[y] || (rank[x] == rank[y] && x <= y)
  }

  predicate IsFirst(rank: map<nat, int>, s: set<nat>, m: nat)
    requires s <= rank.Keys
  {
    m in s && forall x | x in s :: NotAfter(rank, m, x)
  }

  ghost function First(rank: map<nat, int>, s: set<nat>): (m: nat)
    requires s != {} && s <= rank.Keys
    ensures IsFirst(rank, s, m)
  {
    FirstExists(rank, s);
    var m :| IsFirst(rank, s, m);
    m
  }

  lemma FirstExists(rank: map<nat, int>, s: set<nat>)
    requires s != {} && s <= rank.Keys
    ensures exists m :: IsFirst(rank, s, m)
  {
    var m := FindFirst(rank, s);
  }

  lemma {:induction false} FindFirst(rank: map<nat, int>, s: set<nat>) returns (m: nat)
    requires s != {} && s <= rank.Keys
    ensures IsFirst(rank, s, m)
  {
    var a :| a in s;
    if s == {a} {
      m := a;
    } else {
      var rest := s - {a};
      m := FindFirst(rank, rest);
      forall x | x in s && x != a
        ensures NotAfter(rank, m, x)
      {
        assert x in rest;
      }
      if NotAfter(rank, a, m) { m := a; }
    }
  }

  lemma FirstIsUnique(rank: map<nat, int>, s: set<nat>, m: nat, n: nat)
    requires s <= rank.Keys && IsFirst(rank, s, m) && IsFirst(rank, s, n)
    ensures m == n
  {
    assert NotAfter(rank, m, n) && NotAfter(rank, n, m);
  }

  /** The rows of `s` in ascending order. */
  ghost function Ordered(rank: map<nat, int>, s: set<nat>): (r: seq<nat>)
    requires s <= rank.Keys
    ensures forall x :: x in r <==> x in s
    ensures |r| == |s|
  {
    if s == {} then [] else [First(rank, s)] + Ordered(rank, s - {First(rank, s)})
  }

  lemma OrderedFrom(rank: map<nat, int>, s: set<nat>, m: nat)
    requires s <= rank.Keys && IsFirst(rank, s, m)
    ensures Ordered(rank, s) == [m] + Ordered(rank, s - {m})
  {
    FirstIsUnique(rank, s, m, First(rank, s));
  }

  lemma OrderedNext(rank: map<nat, int>, s: set<nat>, r: seq<nat>, todo: set<nat>, m: nat)
    requires s <= rank.Keys && todo <= s && IsFirst(rank, todo, m) && r + Ordered(rank, todo) == Ordered(rank, s)
    ensures r + [m] + Ordered(rank, todo - {m}) == Ordered(rank, s)
  {
    OrderedFrom(rank, todo, m);
    Associates(r, m, Ordered(rank, todo - {m}));
  }

  lemma Associates(r: seq<nat>, m: nat, rest: seq<nat>)
    ensures r + [m] + rest == r + ([m] + rest)
  {}

  /** Accounts are listed by ID. */
  function ById(db: Db): map<nat, int> { map a | a in db.accounts :: 0 }

  /** Transactions are listed by creation time, then ID. */
  function ByTime(db: Db): map<nat, int> { map t | t in db.txns :: db.txns[t].createdAt }

  method OrderBy(rank: map<nat, int>, s: set<nat>) returns (r: seq<nat>)
    requires s <= rank.Keys
    ensures r == Ordered(rank, s)
  {
    r := [];
    var todo := s;
    while todo != {}
      invariant todo <= s && r + Ordered(rank, todo) == Ordered(rank, s)
      decreases |todo|
    {
      FirstExists(rank, todo);
      var m :| m in todo && IsFirst(rank, todo, m);
      OrderedNext(rank, s, r, todo, m);
      r, todo := r + [m], todo - {m};
    }
  }

  // ---- the report ----

  function AccountIssue(db: Db, a: AccountId): Issue
    requires a in db.accounts
  {
    var row := db.accounts[a];
    if CustomerLedger(a) !in db.ledgers then MissingLedgerAccount(a, row.currency, row.balance, LedgerBalance(db, a))
    else BalanceDrift(a, row.currency, row.balance, LedgerBalance(db, a))
  }

  function TxnIssues(db: Db, t: TxnId): seq<Issue> {
    (if Count(db, t) < 2 then [InsufficientPostings(t, Count(db, t), Sum(db, t))] else []) +
    (if Sum(db, t) != 0 then [UnbalancedTransaction(t, Count(db, t), Sum(db, t))] else [])
  }

  function ReversalIssue(db: Db, o: TxnId): Issue { DuplicateReversal(o, |ReversalsOf(db, o)|) }

  function AccountPart(db: Db, rows: seq<AccountId>): seq<Issue>
    requires forall a | a in rows :: a in db.accounts
  {
    if rows == [] then [] else AccountPart(db, rows[..|rows| - 1]) + [AccountIssue(db, rows[|rows| - 1])]
  }

  function TxnPart(db: Db, rows: seq<TxnId>): seq<Issue> {
    if rows == [] then [] else TxnPart(db, rows[..|rows| - 1]) + TxnIssues(db, rows[|rows| - 1])
  }

  function ReversalPart(db: Db, rows: seq<TxnId>): seq<Issue> {
    if rows == [] then [] else ReversalPart(db, rows[..|rows| - 1]) + [ReversalIssue(db, rows[|rows| - 1])]
  }

  ghost function Issues(db: Db, scope: Option<AccountId>): seq<Issue> {
    AccountPart(db, Ordered(ById(db), BadAccounts(db, scope))) + TxnPart(db, Ordered(ByTime(db), BadTxns(db, scope)))
    + ReversalPart(db, Ordered(ByTime(db), BadReversals(db, scope)))
  }

  ghost function Reconciled(db: Db, scope: Option<AccountId>): Result<Report> {
    if scope.Some? && scope.value !in db.accounts then Err(AccountNotFound)
    else if !SumsFit(db, scope) then Err(OutOfRange)
    else Ok(Report(Issues(db, scope) == [], Issues(db, scope)))
  }

  method ReportAccounts(db: Db, rows: seq<AccountId>) returns (issues: seq<Issue>)
    requires forall a | a in rows :: a in db.accounts
    ensures issues == AccountPart(db, rows)
  {
    issues := [];
    for i := 0 to |rows|
      invariant issues == AccountPart(db, rows[..i])
    {
      assert rows[..i + 1][..i] == rows[..i];
      var a := rows[i];
      var row := db.accounts[a];
      if CustomerLedger(a) !in db.ledgers {
        issues := issues + [MissingLedgerAccount(a, row.currency, row.balance, LedgerBalance(db, a))];
      } else {
        issues := issues + [BalanceDrift(a, row.currency, row.balance, LedgerBalance(db, a))];
      }
    }
    assert rows[..|rows|] == rows;
  }

  method ReportTransactions(db: Db, rows: seq<TxnId>) returns (issues: seq<Issue>)
    ensures issues == TxnPart(db, rows)
  {
    issues := [];
    for i := 0 to |rows|
      invariant issues == TxnPart(db, rows[..i])
    {
      assert rows[..i + 1][..i] == rows[..i];
      var t := rows[i];
      if Count(db, t) < 2 {
        issues := issues + [InsufficientPostings(t, Count(db, t), Sum(db, t))];
      }
      if Sum(db, t) != 0 {
        issues := issues + [UnbalancedTransaction(t, Count(db, t), Sum(db, t))];
      }
    }
    assert rows[..|rows|] == rows;
  }

  method ReportReversals(db: Db, rows: seq<TxnId>) returns (issues: seq<Issue>)
    ensures issues == ReversalPart(db, rows)
  {
    issues := [];
    for i := 0 to |rows|
      invariant issues == ReversalPart(db, rows[..i])
    {
      assert rows[..i + 1][..i] == rows[..i];
      issues := issues + [DuplicateReversal(rows[i], |ReversalsOf(db, rows[i])|)];
    }
    assert rows[..|rows|] == rows;
  }

  method Reconcile(db: Db, scope: Option<AccountId>) returns (r: Result<Report>)
    ensures r == Reconciled(db, scope)
  {
    if scope.Some? && scope.value !in db.accounts { return Err(AccountNotFound); }
    if !SumsFit(db, scope) { return Err(OutOfRange); }
    var drifted := OrderBy(ById(db), BadAccounts(db, scope));
    var issues := ReportAccounts(db, drifted);
    var unsound := OrderBy(ByTime(db), BadTxns(db, scope));
    var more := ReportTransactions(db, unsound);
    issues := issues + more;
    var duplicated := OrderBy(ByTime(db), BadReversals(db, scope));
    more := ReportReversals(db, duplicated);
    issues := issues + more;
    return Ok(Report(|issues| == 0, issues));
  }

  // ---- how many issues ----

  lemma {:induction false} AccountPartSize(db: Db, rows: seq<AccountId>)
    requires forall a | a in rows :: a in db.accounts
    ensures |AccountPart(db, rows)| == |rows|
  {
    if rows != [] {
      AccountPartSize(db, rows[..|rows| - 1]);
    }
  }

  lemma {:induction false} TxnPartSize(db: Db, rows: seq<TxnId>)
    requires forall t | t in rows :: Unsound(db, t)
    ensures |rows| <= |TxnPart(db, rows)| <= 2 * |rows|
  {
    if rows != [] {
      TxnPartSize(db, rows[..|rows| - 1]);
      assert Unsound(db, rows[|rows| - 1]);
    }
  }

  lemma {:induction false} ReversalPartSize(db: Db, rows: seq<TxnId>)
    ensures |ReversalPart(db, rows)| == |rows|
  {
    if rows != [] {
      ReversalPartSize(db, rows[..|rows| - 1]);
    }
  }

  lemma IssueCount(db: Db, scope: Option<AccountId>)
    ensures var rows := |BadAccounts(db, scope)| + |BadTxns(db, scope)| + |BadReversals(db, scope)|;
            rows <= |Issues(db, scope)| <= rows + |BadTxns(db, scope)|
  {
    AccountPartSize(db, Ordered(ById(db), BadAccounts(db, scope)));
    TxnPartSize(db, Ordered(ByTime(db), BadTxns(db, scope)));
    ReversalPartSize(db, Ordered(ByTime(db), BadReversals(db, scope)));
  }

  // ---- what is reported ----

  /** The transaction has a posting on the customer ledger of the account in question, if there is one. */
  ghost predicate InReport(db: Db, t: TxnId, scope: Option<AccountId>) {
    scope.Some? ==>
      var l := CustomerLedger(scope.value);
      l in db.ledgers && Total(db.postings, Cell(t, l), One) >= 1
  }

  lemma {:induction false} CountedMeansPresent(ps: seq<Posting>, t: TxnId, l: LedgerId)
    requires Total(ps, Cell(t, l), One) >= 1
    ensures exists p :: p in ps && p.txn == t && p.ledger == l
  {
    var last := ps[|ps| - 1];
    if last.txn == t && last.ledger == l {
      assert last in ps;
    } else {
      CountedMeansPresent(ps[..|ps| - 1], t, l);
      var p :| p in ps[..|ps| - 1] && p.txn == t && p.ledger == l;
      assert p in ps;
    }
  }

  lemma TouchesIsInReport(db: Db, t: TxnId, scope: Option<AccountId>)
    ensures Touches(db, t, scope) <==> InReport(db, t, scope)
  {
    if scope.Some? {
      var l := CustomerLedger(scope.value);
      if p :| p in db.postings && p.txn == t && p.ledger == l {
        CountIsPositive(db.postings, Cell(t, l), p);
      } else if Total(db.postings, Cell(t, l), One) >= 1 {
        CountedMeansPresent(db.postings, t, l);
      }
    }
  }

  /** The issue states a fact about the database, for an account or transaction in scope. */
  ghost predicate Holds(db: Db, scope: Option<AccountId>, issue: Issue) {
    match issue
    case MissingLedgerAccount(a, currency, cached, posted) =>
      && a in db.accounts && (scope.None? || scope.value == a) && CustomerLedger(a) !in db.ledgers
      && currency == db.accounts[a].currency && cached == db.accounts[a].balance && posted == 0
    case BalanceDrift(a, currency, cached, posted) =>
      && a in db.accounts && (scope.None? || scope.value == a) && CustomerLedger(a) in db.ledgers
      && currency == db.accounts[a].currency && cached == db.accounts[a].balance
      && posted == Total(db.postings, OnLedger(CustomerLedger(a)), Amount) != cached
    case InsufficientPostings(t, count, total) =>
      && t in db.txns && (db.txns[t].status == Posted || db.txns[t].status == Reversed) && InReport(db, t, scope)
      && count == Total(db.postings, OfTxn(t), One) < 2 && total == Total(db.postings, OfTxn(t), Amount)
    case UnbalancedTransaction(t, count, total) =>
      && t in db.txns && (db.txns[t].status == Posted || db.txns[t].status == Reversed) && InReport(db, t, scope)
      && count == Total(db.postings, OfTxn(t), One) && total == Total(db.postings, OfTxn(t), Amount) != 0
    case DuplicateReversal(o, n) =>
      && o in db.txns && InReport(db, o, scope) && n == |set r | r in db.txns && db.txns[r].reversalOf == Some(o)| > 1
  }

  predicate OfAccount(issue: Issue) { issue.MissingLedgerAccount? || issue.BalanceDrift? }
  predicate OfPostings(issue: Issue) { issue.InsufficientPostings? || issue.UnbalancedTransaction? }

  lemma {:induction false} AccountPartHolds(db: Db, rows: seq<AccountId>, issue: Issue)
    requires forall a | a in rows :: a in db.accounts
    ensures issue in AccountPart(db, rows) <==>
            OfAccount(issue) && issue.account in rows && issue == AccountIssue(db, issue.account)
  {
    if rows != [] {
      var init, last := rows[..|rows| - 1], rows[|rows| - 1];
      AccountPartHolds(db, init, issue);
      assert AccountIssue(db, last).account == last;
      assert rows == init + [last];
    }
  }

  lemma {:induction false} TxnPartHolds(db: Db, rows: seq<TxnId>, issue: Issue)
    ensures issue in TxnPart(db, rows) <==> OfPostings(issue) && issue.txn in rows && issue in TxnIssues(db, issue.txn)
  {
    if rows != [] {
      TxnPartHolds(db, rows[..|rows| - 1], issue);
      assert rows == rows[..|rows| - 1] + [rows[|rows| - 1]];
    }
  }

  lemma {:induction false} ReversalPartHolds(db: Db, rows: seq<TxnId>, issue: Issue)
    ensures issue in ReversalPart(db, rows) <==> issue.DuplicateReversal? && issue.txn in rows && issue == ReversalIssue(db, issue.txn)
  {
    if rows != [] {
      ReversalPartHolds(db, rows[..|rows| - 1], issue);
      assert rows == rows[..|rows| - 1] + [rows[|rows| - 1]];
    }
  }

  /** The issue belongs to a row that one of the queries returns. */
  ghost predicate Listed(db: Db, scope: Option<AccountId>, issue: Issue) {
    || (OfAccount(issue) && issue.account in BadAccounts(db, scope) && issue == AccountIssue(db, issue.account))
    || (OfPostings(issue) && issue.txn in BadTxns(db, scope) && issue in TxnIssues(db, issue.txn))
    || (issue.DuplicateReversal? && issue.txn in BadReversals(db, scope) && issue == ReversalIssue(db, issue.txn))
  }

  lemma IssuesAreListed(db: Db, scope: Option<AccountId>, issue: Issue)
    ensures issue in Issues(db, scope) <==> Listed(db, scope, issue)
  {
    AccountPartHolds(db, Ordered(ById(db), BadAccounts(db, scope)), issue);
    TxnPartHolds(db, Ordered(ByTime(db), BadTxns(db, scope)), issue);
    ReversalPartHolds(db, Ordered(ByTime(db), BadReversals(db, scope)), issue);
  }

  lemma AccountIssueHolds(db: Db, scope: Option<AccountId>, issue: Issue)
    requires OfAccount(issue)
    ensures Listed(db, scope, issue) <==> Holds(db, scope, issue)
  {}

  lemma TxnIssueHolds(db: Db, scope: Option<AccountId>, issue: Issue)
    requires OfPostings(issue) && (Touches(db, issue.txn, scope) <==> InReport(db, issue.txn, scope))
    ensures Listed(db, scope, issue) <==> Holds(db, scope, issue)
  {
    var t := issue.txn;
    assert TxnIssues(db, t) == (if Count(db, t) < 2 then [InsufficientPostings(t, Count(db, t), Sum(db, t))] else []) +
      (if Sum(db, t) != 0 then [UnbalancedTransaction(t, Count(db, t), Sum(db, t))] else []);
  }

  /** The report lists every issue that holds, and nothing else. */
  lemma ReportIsExact(db: Db, scope: Option<AccountId>, issue: Issue)
    ensures issue in Issues(db, scope) <==> Holds(db, scope, issue)
  {
    IssuesAreListed(db, scope, issue);
    if !OfAccount(issue) { TouchesIsInReport(db, issue.txn, scope); }
    if OfAccount(issue) {
      AccountIssueHolds(db, scope, issue);
    } else if OfPostings(issue) {
      TxnIssueHolds(db, scope, issue);
    } else {
      assert ReversalsOf(db, issue.txn) == set r | r in db.txns && db.txns[r].reversalOf == Some(issue.txn);
    }
  }

  // ---- in which order ----

  function Section(issue: Issue): nat { if OfAccount(issue) then 0 else if OfPostings(issue) then 1 else 2 }

  ghost predicate Earlier(db: Db, t: TxnId, u: TxnId) {
    && t in db.txns && u in db.txns
    && (db.txns[t].createdAt < db.txns[u].createdAt || (db.txns[t].createdAt == db.txns[u].createdAt && t < u))
  }

  /** Accounts by ID; then transactions by creation time and ID, too few postings before an imbalance; then
      reversed transactions by creation time and ID. */
  ghost predicate Precedes(db: Db, x: Issue, y: Issue) {
    || Section(x) < Section(y)
    || (&& Section(x) == Section(y)
        && if OfAccount(x) then OfAccount(y) && x.account < y.account
           else !OfAccount(y) && (Earlier(db, x.txn, y.txn) || (x.txn == y.txn && x.InsufficientPostings? && y.UnbalancedTransaction?)))
  }

  ghost predicate Sorted(db: Db, issues: seq<Issue>) { forall i, j | 0 <= i < j < |issues| :: Precedes(db, issues[i], issues[j]) }

  lemma SortedConcat(db: Db, xs: seq<Issue>, ys: seq<Issue>)
    requires Sorted(db, xs) && Sorted(db, ys) && forall x, y | x in xs && y in ys :: Precedes(db, x, y)
    ensures Sorted(db, xs + ys)
  {}

  ghost predicate Ascends(rank: map<nat, int>, r: seq<nat>)
    requires forall x | x in r :: x in rank
  {
    forall i, j | 0 <= i < j < |r| :: rank[r[i]] < rank[r[j]] || (rank[r[i]] == rank[r[j]] && r[i] < r[j])
  }

  lemma {:induction false} OrderedAscends(rank: map<nat, int>, s: set<nat>)
    requires s <= rank.Keys
    ensures Ascends(rank, Ordered(rank, s))
  {
    if s != {} {
      var m := First(rank, s);
      var rest := Ordered(rank, s - {m});
      OrderedAscends(rank, s - {m});
      forall j | 0 <= j < |rest|
        ensures rank[m] < rank[rest[j]] || (rank[m] == rank[rest[j]] && m < rest[j])
      {
        assert rest[j] in s - {m};
        assert NotAfter(rank, m, rest[j]);
      }
      AscendsFrom(rank, m, rest);
    }
  }

  lemma AscendsFrom(rank: map<nat, int>, m: nat, rest: seq<nat>)
    requires m in rank && (forall x | x in rest :: x in rank) && Ascends(rank, rest)
    requires forall j | 0 <= j < |rest| :: rank[m] < rank[rest[j]] || (rank[m] == rank[rest[j]] && m < rest[j])
    ensures Ascends(rank, [m] + rest)
  {}

  ghost predicate InOrder(db: Db, rows: seq<TxnId>) { forall i, j | 0 <= i < j < |rows| :: Earlier(db, rows[i], rows[j]) }

  /** A listing of transactions is in order of creation. */
  lemma TxnsInOrder(db: Db, s: set<TxnId>)
    requires s <= db.txns.Keys
    ensures InOrder(db, Ordered(ByTime(db), s))
  {
    OrderedAscends(ByTime(db), s);
    var r := Ordered(ByTime(db), s);
    assert forall i | 0 <= i < |r| :: r[i] in s && r[i] in db.txns;
  }

  ghost predicate Rising(rows: seq<AccountId>) { forall i, j | 0 <= i < j < |rows| :: rows[i] < rows[j] }

  lemma AccountsInOrder(db: Db, s: set<AccountId>)
    requires s <= db.accounts.Keys
    ensures Rising(Ordered(ById(db), s))
  {
    OrderedAscends(ById(db), s);
    var r := Ordered(ById(db), s);
    assert forall i | 0 <= i < |r| :: r[i] in s;
  }

  lemma {:induction false} AccountPartSorted(db: Db, rows: seq<AccountId>)
    requires (forall a | a in rows :: a in db.accounts) && Rising(rows)
    ensures Sorted(db, AccountPart(db, rows))
  {
    if rows != [] {
      var init, last := rows[..|rows| - 1], rows[|rows| - 1];
      AccountPartSorted(db, init);
      forall x | x in AccountPart(db, init)
        ensures Precedes(db, x, AccountIssue(db, last))
      {
        AccountPartHolds(db, init, x);
      }
      SortedConcat(db, AccountPart(db, init), [AccountIssue(db, last)]);
    }
  }

  lemma {:induction false} TxnPartSorted(db: Db, rows: seq<TxnId>)
    requires InOrder(db, rows)
    ensures Sorted(db, TxnPart(db, rows))
  {
    if rows != [] {
      var init, last := rows[..|rows| - 1], rows[|rows| - 1];
      TxnPartSorted(db, init);
      forall x, y | x in TxnPart(db, init) && y in TxnIssues(db, last)
        ensures Precedes(db, x, y)
      {
        TxnPartHolds(db, init, x);
      }
      SortedConcat(db, TxnPart(db, init), TxnIssues(db, last));
    }
  }

  lemma {:induction false} ReversalPartSorted(db: Db, rows: seq<TxnId>)
    requires InOrder(db, rows)
    ensures Sorted(db, ReversalPart(db, rows))
  {
    if rows != [] {
      var init, last := rows[..|rows| - 1], rows[|rows| - 1];
      ReversalPartSorted(db, init);
      forall x | x in ReversalPart(db, init)
        ensures Precedes(db, x, ReversalIssue(db, last))
      {
        ReversalPartHolds(db, init, x);
      }
      SortedConcat(db, ReversalPart(db, init), [ReversalIssue(db, last)]);
    }
  }

  /** With the exact contents this determines the report: it is sorted, so no issue comes twice. */
  lemma ReportIsSorted(db: Db, scope: Option<AccountId>)
    ensures Sorted(db, Issues(db, scope))
  {
    var accounts, txns, reversals := Ordered(ById(db), BadAccounts(db, scope)), Ordered(ByTime(db), BadTxns(db, scope)), Ordered(ByTime(db), BadReversals(db, scope));
    AccountsInOrder(db, BadAccounts(db, scope));
    TxnsInOrder(db, BadTxns(db, scope));
    TxnsInOrder(db, BadReversals(db, scope));
    AccountPartSorted(db, accounts);
    TxnPartSorted(db, txns);
    ReversalPartSorted(db, reversals);
    PartsInSections(db, accounts, txns, reversals);
    SectionsSorted(db, AccountPart(db, accounts), TxnPart(db, txns), ReversalPart(db, reversals));
  }

  lemma SectionsSorted(db: Db, xs: seq<Issue>, ys: seq<Issue>, zs: seq<Issue>)
    requires Sorted(db, xs) && Sorted(db, ys) && Sorted(db, zs)
    requires (forall x | x in xs :: Section(x) == 0) && (forall y | y in ys :: Section(y) == 1) && (forall z | z in zs :: Section(z) == 2)
    ensures Sorted(db, xs + ys + zs)
  {
    SortedConcat(db, xs, ys);
    SortedConcat(db, xs + ys, zs);
  }

  lemma PartsInSections(db: Db, accounts: seq<AccountId>, txns: seq<TxnId>, reversals: seq<TxnId>)
    requires forall a | a in accounts :: a in db.accounts
    ensures forall x | x in AccountPart(db, accounts) :: Section(x) == 0
    ensures forall x | x in TxnPart(db, txns) :: Section(x) == 1
    ensures forall x | x in ReversalPart(db, reversals) :: Section(x) == 2
  {
    forall x ensures x in AccountPart(db, accounts) ==> Section(x) == 0 { AccountPartHolds(db, accounts, x); }
    forall x ensures x in TxnPart(db, txns) ==> Section(x) == 1 { TxnPartHolds(db, txns, x); }
    forall x ensures x in ReversalPart(db, reversals) ==> Section(x) == 2 { ReversalPartHolds(db, reversals, x); }
  }

  /** There is no report exactly when the account is unknown, or a sum in its scope does not fit a `bigint`. */
  lemma ReportFailsExactly(db: Db, scope: Option<AccountId>)
    ensures Reconciled(db, scope) == Err(AccountNotFound) <==> scope.Some? && scope.value !in db.accounts
    ensures Reconciled(db, scope) == Err(OutOfRange) <==>
            && (scope.Some? ==> scope.value in db.accounts)
            && (|| (exists a | a in db.accounts && (scope.None? || scope.value == a) && CustomerLedger(a) in db.ledgers ::
                      !(-0x8000_0000_0000_0000 <= Total(db.postings, OnLedger(CustomerLedger(a)), Amount) < 0x8000_0000_0000_0000))
                || (exists t | t in db.txns && (db.txns[t].status == Posted || db.txns[t].status == Reversed) && InReport(db, t, scope) ::
                      !(-0x8000_0000_0000_0000 <= Total(db.postings, OfTxn(t), Amount) < 0x8000_0000_0000_0000)))
    ensures Reconciled(db, scope).Ok? ==> Reconciled(db, scope).value == Report(Issues(db, scope) == [], Issues(db, scope))
  {
    forall t ensures Touches(db, t, scope) <==> InReport(db, t, scope) {
      TouchesIsInReport(db, t, scope);
    }
    SumsFitExactly(db, scope);
  }

  lemma SumsFitExactly(db: Db, scope: Option<AccountId>)
    ensures SumsFit(db, scope) <==>
      && (forall a | a in db.accounts && (scope.None? || scope.value == a) && CustomerLedger(a) in db.ledgers ::
            -0x8000_0000_0000_0000 <= Total(db.postings, OnLedger(CustomerLedger(a)), Amount) < 0x8000_0000_0000_0000)
      && (forall t | t in db.txns && (db.txns[t].status == Posted || db.txns[t].status == Reversed) && Touches(db, t, scope) ::
            -0x8000_0000_0000_0000 <= Total(db.postings, OfTxn(t), Amount) < 0x8000_0000_0000_0000)
  {
    if SumsFit(db, scope) {
      assert forall a | a in db.accounts && (scope.None? || scope.value == a) :: a in ScopedAccounts(db, scope);
      assert forall t | t in db.txns && (db.txns[t].status == Posted || db.txns[t].status == Reversed) && Touches(db, t, scope) :: t in ScopedTxns(db, scope);
    }
  }

  // ---- what a consistent report means ----

  ghost predicate AccountsSound(db: Db, scope: Option<AccountId>) {
    forall a | a in db.accounts && (scope.None? || scope.value == a) ::
      CustomerLedger(a) in db.ledgers && db.accounts[a].balance == Total(db.postings, OnLedger(CustomerLedger(a)), Amount)
  }

  ghost predicate TxnsSound(db: Db, scope: Option<AccountId>) {
    forall t | t in db.txns && (db.txns[t].status == Posted || db.txns[t].status == Reversed) && InReport(db, t, scope) ::
      Total(db.postings, OfTxn(t), One) >= 2 && Total(db.postings, OfTxn(t), Amount) == 0
  }

  ghost predicate ReversalsSound(db: Db, scope: Option<AccountId>) {
    forall o, r, r' | o in db.txns && InReport(db, o, scope) && Reverses(db, r, o) && Reverses(db, r', o) :: r == r'
  }

  /** The ledger invariants that reconciliation watches, for accounts and transactions in scope. */
  ghost predicate Sound(db: Db, scope: Option<AccountId>) {
    AccountsSound(db, scope) && TxnsSound(db, scope) && ReversalsSound(db, scope)
  }

  /** Balances are `bigint` columns. */
  ghost predicate Stored(db: Db) { forall a | a in db.accounts :: Fits(db.accounts[a].balance) }

  ghost predicate Consistent(db: Db, scope: Option<AccountId>) {
    Reconciled(db, scope).Ok? && Reconciled(db, scope).value.consistent
  }

  lemma AtMostOne(db: Db, o: TxnId)
    ensures |ReversalsOf(db, o)| > 1 <==> exists r, r' :: Reverses(db, r, o) && Reverses(db, r', o) && r != r'
  {
    var s := ReversalsOf(db, o);
    if |s| > 1 {
      var r :| r in s;
      assert |s - {r}| >= 1;
      var r' :| r' in s - {r};
      assert Reverses(db, r, o) && Reverses(db, r', o);
    }
    if r, r' :| Reverses(db, r, o) && Reverses(db, r', o) && r != r' {
      assert {r, r'} <= s;
      SubsetSize({r, r'}, s);
    }
  }

  lemma NoBadAccounts(db: Db, scope: Option<AccountId>)
    ensures BadAccounts(db, scope) == {} <==> AccountsSound(db, scope)
  {
    if BadAccounts(db, scope) == {} {
      assert forall a | a in db.accounts && InScope(scope, a) :: a !in BadAccounts(db, scope);
    }
  }

  lemma NoBadTxns(db: Db, scope: Option<AccountId>)
    ensures BadTxns(db, scope) == {} <==> TxnsSound(db, scope)
  {
    forall t ensures Touches(db, t, scope) <==> InReport(db, t, scope) {
      TouchesIsInReport(db, t, scope);
    }
    if BadTxns(db, scope) == {} {
      assert forall t | t in db.txns && Final(db.txns[t]) && Touches(db, t, scope) :: t !in BadTxns(db, scope);
    }
  }

  lemma NoBadReversals(db: Db, scope: Option<AccountId>)
    ensures BadReversals(db, scope) == {} <==> ReversalsSound(db, scope)
  {
    forall o | o in db.txns && Touches(db, o, scope)
      ensures o in BadReversals(db, scope) <==> exists r, r' :: Reverses(db, r, o) && Reverses(db, r', o) && r != r'
    {
      AtMostOne(db, o);
    }
    forall o ensures Touches(db, o, scope) <==> InReport(db, o, scope) {
      TouchesIsInReport(db, o, scope);
    }
  }

  lemma NoIssues(db: Db, scope: Option<AccountId>)
    ensures Issues(db, scope) == [] <==> Sound(db, scope)
  {
    IssueCount(db, scope);
    NoBadAccounts(db, scope);
    NoBadTxns(db, scope);
    NoBadReversals(db, scope);
  }

  /** A report is consistent exactly when the invariants it watches hold. */
  lemma ConsistentExactlyWhenSound(db: Db, scope: Option<AccountId>)
    requires Stored(db)
    ensures Consistent(db, scope) <==> (scope.Some? ==> scope.value in db.accounts) && Sound(db, scope)
  {
    NoIssues(db, scope);
    if Sound(db, scope) {
      SoundSumsFit(db, scope);
    }
  }

  lemma SoundSumsFit(db: Db, scope: Option<AccountId>)
    requires Stored(db) && AccountsSound(db, scope) && TxnsSound(db, scope)
    ensures SumsFit(db, scope)
  {
    forall t ensures Touches(db, t, scope) <==> InReport(db, t, scope) {
      TouchesIsInReport(db, t, scope);
    }
  }

  /** A consistent global report makes every account's own report consistent. */
  lemma GlobalCoversEveryAccount(db: Db, a: AccountId)
    requires Stored(db) && Consistent(db, None) && a in db.accounts
    ensures Consistent(db, Some(a))
  {
    ConsistentExactlyWhenSound(db, None);
    SoundForEach(db, a);
    ConsistentExactlyWhenSound(db, Some(a));
  }

  lemma SoundForEach(db: Db, a: AccountId)
    requires Sound(db, None)
    ensures Sound(db, Some(a))
  {}

  /** The other way round fails: a posted transaction without postings is in no account's scope. */
  lemma AccountsDoNotCoverGlobal() returns (db: Db)
    ensures Stored(db) && !Consistent(db, None) && forall a | a in db.accounts :: Consistent(db, Some(a))
  {
    db := Db(map[], map[], map[0 := Txn(Deposit, Posted, "", 1, "", None, 0, Some(0))], [], map[]);
    assert 0 in db.txns && Final(db.txns[0]) && Touches(db, 0, None) && Count(db, 0) == 0;
    ConsistentExactlyWhenSound(db, None);
  }

  /** On no existing customer account. */
  ghost predicate Unscoped(db: Db, t: TxnId) { forall a | a in db.accounts :: !InReport(db, t, Some(a)) }

  /** What the account reports cannot see: the transactions on no customer account. */
  ghost predicate RestSound(db: Db) {
    forall t | t in db.txns && Unscoped(db, t) ::
      && (db.txns[t].status == Posted || db.txns[t].status == Reversed ==>
            Total(db.postings, OfTxn(t), One) >= 2 && Total(db.postings, OfTxn(t), Amount) == 0)
      && forall r, r' | Reverses(db, r, t) && Reverses(db, r', t) :: r == r'
  }

  lemma SoundByParts(db: Db)
    ensures Sound(db, None) <==> (forall a | a in db.accounts :: Sound(db, Some(a))) && RestSound(db)
  {
    NoBadReversals(db, None);
    forall t | t in db.txns
      ensures |ReversalsOf(db, t)| > 1 <==> exists r, r' :: Reverses(db, r, t) && Reverses(db, r', t) && r != r'
    {
      AtMostOne(db, t);
    }
    if (forall a | a in db.accounts :: Sound(db, Some(a))) && RestSound(db) {
      forall a | a in db.accounts
        ensures AccountsSound(db, Some(a)) && TxnsSound(db, Some(a)) && ReversalsSound(db, Some(a))
      {
        assert Sound(db, Some(a));
      }
    }
  }

  /** The exact difference between the global report and all the account reports together. */
  lemma GlobalIsEveryAccountAndTheRest(db: Db)
    requires Stored(db)
    ensures Consistent(db, None) <==> (forall a | a in db.accounts :: Consistent(db, Some(a))) && RestSound(db)
  {
    ConsistentExactlyWhenSound(db, None);
    forall a | a in db.accounts
      ensures Consistent(db, Some(a)) <==> Sound(db, Some(a))
    {
      ConsistentExactlyWhenSound(db, Some(a));
    }
    SoundByParts(db);
  }

  // ---- the independently written metric ----

  function ReversedTwice(db: Db): set<TxnId> {
    set r | r in db.txns && db.txns[r].reversalOf.Some? && |ReversalsOf(db, db.txns[r].reversalOf.value)| > 1 :: db.txns[r].reversalOf.value
  }

  /** `reconciliation_drift`: offending rows, with reversals grouped by the column alone. */
  function DriftCount(db: Db): Result<nat> {
    if SumsFit(db, None) then Ok(|BadAccounts(db, None)| + |BadTxns(db, None)| + |ReversedTwice(db)|) else Err(OutOfRange)
  }

  ghost predicate ReversalsReferToRows(db: Db) {
    forall r | r in db.txns && db.txns[r].reversalOf.Some? :: db.txns[r].reversalOf.value in db.txns
  }

  /** The metric `d` and the number `n` of reported issues satisfy `d <= n <= 2d`. */
  lemma MetricBoundsReport(db: Db)
    ensures DriftCount(db).Ok? <==> Reconciled(db, None).Ok?
    ensures DriftCount(db).Ok? ==>
              var d, n := DriftCount(db).value, |Reconciled(db, None).value.issues|;
              n <= 2 * d && (ReversalsReferToRows(db) ==> d <= n)
  {
    IssueCount(db, None);
    forall o | o in BadReversals(db, None)
      ensures o in ReversedTwice(db)
    {
      AtMostOne(db, o);
      var r :| Reverses(db, r, o);
    }
    SubsetSize(BadReversals(db, None), ReversedTwice(db));
    if ReversalsReferToRows(db) {
      SubsetSize(ReversedTwice(db), BadReversals(db, None));
    }
  }

  lemma InvariantIsSound(db: Db, scope: Option<AccountId>)
    requires Inv(db)
    ensures Stored(db) && Sound(db, scope)
  {
    forall a | a in db.accounts
      ensures AccountAgrees(db, a)
    {}
    forall t | t in db.txns
      ensures TxnBalanced(db, t)
    {}
  }

  /** Every state the money operations can reach reconciles without an issue. */
  lemma ReachableReconciles(steps: seq<Step>, scope: Option<AccountId>)
    requires scope.Some? ==> scope.value in Run(INITIAL, steps).accounts
    ensures Reconciled(Run(INITIAL, steps), scope) == Ok(Report(true, []))
  {
    var db := Run(INITIAL, steps);
    ReachableIsSafe(steps, "");
    InvariantIsSound(db, scope);
    ConsistentExactlyWhenSound(db, scope);
  }
}
