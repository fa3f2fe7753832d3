/** The rows the money operations read and write, and sums over the posting log.

    An account's public ID and account number are immutable unique keys of its row, so one
    identifier stands for all three. A ledger account is identified by its unique natural key:
    the customer account it mirrors, or its settlement code. */
module Tables {
  import opened Common

  type AccountId = nat
  type TxnId = nat

  const MAX_BIGINT := 0x7FFF_FFFF_FFFF_FFFF
  const KEY_LIFETIME: Time := 24 * 3600 * 1_000_000

  datatype Result<+T> = Ok(value: T) | Err(error: Error)

  datatype Error =
    | AccountNotFound | RecipientNotFound | SameAccount | AccountNotOwned | CurrencyMismatch
    | AccountFrozen | AccountClosed | AccountBalanceNotZero | AlreadyFrozen | AlreadyActive
    | PerTransferLimitExceeded | DailyTransferLimitExceeded | InsufficientBalance
    | AmountNotPositive | TooFewPostings | ZeroPosting | Unbalanced
    | InvalidOperatorAction | InvalidTargetStatus | TransactionNotFound | TransactionNotReversible
    | TransactionAlreadyReversed | TransactionNotPosted | ReversalInsufficientFunds
    | InvalidIdempotencyKey | IdempotencyConflict | IncompleteRecord
    | NoRows | DuplicateKey | OutOfRange

  datatype AccountStatus = Active | Frozen | Closed
  datatype Account = Account(owner: string, balance: int, currency: string, status: AccountStatus)

  datatype LedgerId = CustomerLedger(account: AccountId) | SettlementLedger(code: string)

  datatype TxnKind = Deposit | Withdrawal | InternalTransfer | Reversal
  datatype TxnStatus = Pending | Posted | Failed | Reversed
  datatype Txn = Txn(kind: TxnKind, status: TxnStatus, currency: string, amount: int, initiatedBy: string,
                     reversalOf: Option<TxnId>, createdAt: Time, postedAt: Option<Time>)

  datatype Posting = Posting(txn: TxnId, ledger: LedgerId, amount: int)

  /** What a committed transfer returns, and what an idempotency row keeps for replay. */
  datatype Receipt = Receipt(id: TxnId, txn: Txn, lines: seq<Posting>, from: Account, to: Account)
  datatype KeyId = KeyId(user: string, key: string)
  datatype KeyRow = KeyRow(hash: string, result: Option<Receipt>, expiresAt: Time)

  datatype Db = Db(
    accounts: map<AccountId, Account>,
    ledgers: map<LedgerId, string>,  // ledger account -> currency
    txns: map<TxnId, Txn>,
    postings: seq<Posting>,          // append-only
    keys: map<KeyId, KeyRow>)

  // ---- sums over the posting log ----

  datatype Selector = OnLedger(l: LedgerId) | OfTxn(t: TxnId) | Cell(t: TxnId, l: LedgerId)
  datatype Measure = Amount | Magnitude | One

  predicate Selects(s: Selector, p: Posting) {
    match s
    case OnLedger(l) => p.ledger == l
    case OfTxn(t) => p.txn == t
    case Cell(t, l) => p.txn == t && p.ledger == l
  }

  function Weight(m: Measure, p: Posting): int {
    match m
    case Amount => p.amount
    case Magnitude => if p.amount < 0 then -p.amount else p.amount
    case One => 1
  }

  /** `sum(amount)`, `sum(abs(amount))` or `count(*)` over the selected postings. */
  function Total(ps: seq<Posting>, s: Selector, m: Measure): int {
    if ps == [] then 0
    else
      var last := ps[|ps| - 1];
      Total(ps[..|ps| - 1], s, m) + (if Selects(s, last) then Weight(m, last) else 0)
  }

  /** `ListReversalSourcePostings`: the postings of one transaction, in posting order. */
  function PostingsOf(ps: seq<Posting>, t: TxnId): seq<Posting> {
    if ps == [] then []
    else
      var last := ps[|ps| - 1];
      PostingsOf(ps[..|ps| - 1], t) + (if last.txn == t then [last] else [])
  }

  lemma {:induction false} TotalAppend(ps: seq<Posting>, qs: seq<Posting>, s: Selector, m: Measure)
    ensures Total(ps + qs, s, m) == Total(ps, s, m) + Total(qs, s, m)
  {
    if qs == [] {
      assert ps + qs == ps;
    } else {
      assert (ps + qs)[..|ps + qs| - 1] == ps + qs[..|qs| - 1];
      TotalAppend(ps, qs[..|qs| - 1], s, m);
    }
  }

  lemma {:induction false} TotalNone(ps: seq<Posting>, s: Selector, m: Measure)
    requires forall p | p in ps :: !Selects(s, p)
    ensures Total(ps, s, m) == 0
  {
    if ps != [] {
      TotalNone(ps[..|ps| - 1], s, m);
    }
  }

  lemma {:induction false} PostingsOfAppend(ps: seq<Posting>, qs: seq<Posting>, t: TxnId)
    ensures PostingsOf(ps + qs, t) == PostingsOf(ps, t) + PostingsOf(qs, t)
  {
    if qs == [] {
      assert ps + qs == ps;
    } else {
      assert (ps + qs)[..|ps + qs| - 1] == ps + qs[..|qs| - 1];
      PostingsOfAppend(ps, qs[..|qs| - 1], t);
    }
  }

  lemma {:induction false} PostingsOfNone(ps: seq<Posting>, t: TxnId)
    requires forall p | p in ps :: p.txn != t
    ensures PostingsOf(ps, t) == []
  {
    if ps != [] {
      PostingsOfNone(ps[..|ps| - 1], t);
    }
  }

  /** A transaction's extracted postings carry its whole total, cell by cell. */
  lemma {:induction false} PostingsOfTotals(ps: seq<Posting>, t: TxnId, s: Selector, m: Measure)
    requires s == OfTxn(t) || exists l :: s == Cell(t, l)
    ensures Total(PostingsOf(ps, t), s, m) == Total(ps, s, m)
    ensures forall p | p in PostingsOf(ps, t) :: p in ps && p.txn == t
  {
    if ps != [] {
      var last := ps[|ps| - 1];
      PostingsOfTotals(ps[..|ps| - 1], t, s, m);
      if last.txn == t {
        TotalAppend(PostingsOf(ps[..|ps| - 1], t), [last], s, m);
        assert [last][..0] == [];
      } else {
        assert PostingsOf(ps, t) == PostingsOf(ps[..|ps| - 1], t);
      }
    }
  }

  lemma CountOfTxnIsLength(ps: seq<Posting>, t: TxnId)
    requires forall p | p in ps :: p.txn == t
    ensures Total(ps, OfTxn(t), One) == |ps|
  {
    if ps != [] {
      CountOfTxnIsLength(ps[..|ps| - 1], t);
    }
  }

  lemma {:induction false} CountIsPositive(ps: seq<Posting>, s: Selector, p: Posting)
    requires p in ps && Selects(s, p)
    ensures Total(ps, s, One) >= 1
  {
    CountNotNegative(ps[..|ps| - 1], s);
    if ps[|ps| - 1] != p {
      CountIsPositive(ps[..|ps| - 1], s, p);
    }
  }

  lemma {:induction false} CountNotNegative(ps: seq<Posting>, s: Selector)
    ensures Total(ps, s, One) >= 0
  {
    if ps != [] {
      CountNotNegative(ps[..|ps| - 1], s);
    }
  }

  ghost predicate CellsUnique(ps: seq<Posting>, l: LedgerId) { forall t :: Total(ps, Cell(t, l), One) <= 1 }

  /** Where cells are unique, no earlier posting shares the cell of the last one. */
  lemma EarlierCellIsEmpty(ps: seq<Posting>, l: LedgerId)
    requires ps != [] && CellsUnique(ps, l) && ps[|ps| - 1].ledger == l
    ensures var prev, t := ps[..|ps| - 1], ps[|ps| - 1].txn;
            Total(prev, Cell(t, l), Amount) == 0 && forall p | p in prev :: p.txn != t || p.ledger != l
  {
    var prev, t := ps[..|ps| - 1], ps[|ps| - 1].txn;
    forall p | p in prev
      ensures !Selects(Cell(t, l), p)
    {
      if Selects(Cell(t, l), p) { CountIsPositive(prev, Cell(t, l), p); }
    }
    TotalNone(prev, Cell(t, l), Amount);
  }

  lemma CellsStayUnique(ps: seq<Posting>, l: LedgerId)
    requires ps != [] && CellsUnique(ps, l)
    ensures CellsUnique(ps[..|ps| - 1], l)
  {
    forall t ensures Total(ps[..|ps| - 1], Cell(t, l), One) <= 1 {
      assert Total(ps, Cell(t, l), One) <= 1;
    }
  }

  // ---- row sets in ascending order ----

  ghost function Least(s: set<AccountId>): (m: AccountId)
    requires s != {}
    ensures m in s && forall x | x in s :: m <= x
  {
    LeastExists(s);
    var m :| m in s && forall x | x in s :: m <= x;
    m
  }

  ghost function Ascending(s: set<AccountId>): (r: seq<AccountId>)
    ensures forall a :: a in r <==> a in s
    ensures forall i, j | 0 <= i < j < |r| :: r[i] < r[j]
  {
    if s == {} then [] else [Least(s)] + Ascending(s - {Least(s)})
  }

  lemma LeastExists(s: set<AccountId>)
    requires s != {}
    ensures exists m :: m in s && forall x | x in s :: m <= x
  {
    var m := FindLeast(s);
  }

  lemma {:induction false} FindLeast(s: set<AccountId>) returns (m: AccountId)
    requires s != {}
    ensures m in s && forall x | x in s :: m <= x
  {
    var a :| a in s;
    if s == {a} {
      m := a;
    } else {
      var rest := s - {a};
      m := FindLeast(rest);
      forall x | x in s && x != a
        ensures m <= x
      {
        assert x in rest;
      }
      if a < m { m := a; }
    }
  }
}
