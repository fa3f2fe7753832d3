/** An account's history, read page by page through a cursor. */
module History {
  import opened Common
  import opened Tables

  /** The sort key and cursor of the listing, `(created_at, id)`. */
  datatype Key = Key(at: Time, id: TxnId)

  datatype Line = Line(kind: TxnKind, status: TxnStatus, amount: int, signed: int, postedAt: Option<Time>)
  datatype Direction = Incoming | Outgoing
  datatype Filter = Filter(from: Option<Time>, to: Option<Time>, kind: Option<TxnKind>, status: Option<TxnStatus>, direction: Option<Direction>)

  predicate Before(k: Key, l: Key) { k.at < l.at || (k.at == l.at && k.id < l.id) }

  function DirectionOf(line: Line): Direction { if line.signed > 0 then Incoming else Outgoing }

  predicate InRange(f: Filter, at: Time) { (f.from.Some? ==> f.from.value <= at) && (f.to.Some? ==> at < f.to.value) }

  predicate Matches(f: Filter, k: Key, line: Line) {
    && InRange(f, k.at)
    && (f.kind.Some? ==> line.kind == f.kind.value)
    && (f.status.Some? ==> line.status == f.status.value)
    && (f.direction.Some? ==> DirectionOf(line) == f.direction.value)
  }

  function Matching(h: map<Key, Line>, f: Filter): set<Key> { set k | k in h && Matches(f, k, h[k]) }

  function Below(s: set<Key>, cursor: Option<Key>): set<Key> { set k | k in s && (cursor.Some? ==> Before(k, cursor.value)) }

  // ---- descending order ----

  ghost predicate Descends(r: seq<Key>) { forall i, j | 0 <= i < j < |r| :: Before(r[j], r[i]) }

  ghost predicate Lists(r: seq<Key>, s: set<Key>) { Descends(r) && forall k :: k in r <==> k in s }

  ghost predicate IsLatest(s: set<Key>, m: Key) { m in s && forall k | k in s && k != m :: Before(k, m) }

  lemma LatestExists(s: set<Key>)
    requires s != {}
    ensures exists m :: IsLatest(s, m)
  {
    var m := FindLatest(s);
  }

  lemma {:induction false} FindLatest(s: set<Key>) returns (m: Key)
    requires s != {}
    ensures IsLatest(s, m)
  {
    var a :| a in s;
    if s == {a} {
      m := a;
    } else {
      var rest := s - {a};
      m := FindLatest(rest);
      forall k | k in s && k != a
        ensures k == m || Before(k, m)
      {
        assert k in rest;
      }
      if Before(m, a) { m := a; }
    }
  }

  ghost function Latest(s: set<Key>): (m: Key)
    requires s != {}
    ensures IsLatest(s, m)
  {
    LatestExists(s);
    var m :| IsLatest(s, m);
    m
  }

  /** `ORDER BY created_at DESC, id DESC`. */
  ghost function Descending(s: set<Key>): (r: seq<Key>)
    ensures Lists(r, s) && |r| == |s|
  {
    if s == {} then [] else [Latest(s)] + Descending(s - {Latest(s)})
  }

  /** There is only one way to list a set in descending order. */
  lemma {:induction false} ListingIsUnique(r: seq<Key>, s: set<Key>)
    requires Lists(r, s)
    ensures r == Descending(s)
  {
    if r == [] {
      assert s == {};
    } else {
      assert r[0] in s;
      var rest, m := r[1..], Latest(s);
      assert r == [r[0]] + rest && m in r;
      assert m == r[0];
      ListingIsUnique(rest, s - {m});
    }
  }

  // ---- one page ----

  datatype Page<T> = Page(rows: seq<T>, next: Option<Key>)

  /** The query asks for one row more than the page holds; the extra row only tells that more follow. */
  ghost function PageOf(s: set<Key>, cursor: Option<Key>, size: nat): Page<Key> {
    var all := Descending(Below(s, cursor));
    Cut(if |all| > size + 1 then all[..size + 1] else all, size)
  }

  function Cut(rows: seq<Key>, size: nat): Page<Key> {
    if |rows| > size then Page(rows[..size], if size == 0 then None else Some(rows[size - 1])) else Page(rows, None)
  }

  datatype Item = Item(key: Key, line: Line, balanceAfter: int)
  datatype Response = Response(id: TxnId, account: AccountId, kind: TxnKind, status: TxnStatus, direction: Direction,
                               amount: int, balanceAfter: int, createdAt: Time, postedAt: Option<Time>)

  function Respond(row: Item, account: AccountId): Response {
    Response(row.key.id, account, row.line.kind, row.line.status, DirectionOf(row.line), row.line.amount, row.balanceAfter, row.key.at, row.line.postedAt)
  }

  function KeysOf(rows: seq<Item>): (ks: seq<Key>)
    ensures |ks| == |rows| && forall i | 0 <= i < |rows| :: ks[i] == rows[i].key
  {
    seq(|rows|, i requires 0 <= i < |rows| => rows[i].key)
  }

  method TransactionPage(rows: seq<Item>, size: nat, account: AccountId) returns (items: seq<Response>, next: Option<Key>)
    ensures |items| == |Cut(KeysOf(rows), size).rows| && next == Cut(KeysOf(rows), size).next
    ensures forall i | 0 <= i < |items| :: items[i] ==
              Response(rows[i].key.id, account, rows[i].line.kind, rows[i].line.status, if rows[i].line.signed > 0 then Incoming else Outgoing,
                       rows[i].line.amount, rows[i].balanceAfter, rows[i].key.at, rows[i].line.postedAt)
  {
    var hasNext := |rows| > size;
    var kept := if hasNext then rows[..size] else rows;
    items := [];
    for i := 0 to |kept|
      invariant |items| == i && forall j | 0 <= j < i :: items[j] == Respond(kept[j], account)
    {
      items := items + [Respond(kept[i], account)];
    }
    if !hasNext || |kept| == 0 { return items, None; }
    return items, Some(kept[|kept| - 1].key);
  }

  // ---- what a page holds ----

  /** At or after the next cursor. */
  predicate Reached(k: Key, next: Option<Key>) { next.Some? ==> !Before(k, next.value) }

  /** The page holds exactly the rows between the two cursors. A page with a successor is full. */
  lemma PageIsAnInterval(s: set<Key>, cursor: Option<Key>, size: nat)
    requires size > 0
    ensures var p := PageOf(s, cursor, size);
            && Descends(p.rows)
            && (forall k :: k in p.rows <==> k in Below(s, cursor) && Reached(k, p.next))
            && (p.next.Some? ==> |p.rows| == size && p.next == Some(p.rows[size - 1]))
  {
    var below := Below(s, cursor);
    var all := Descending(below);
    PageIsAPrefix(s, cursor, size);
    if |all| > size {
      TakeIsReached(all, below, size);
    }
  }

  /** The first `n` rows of a descending listing are those not before the last of them. */
  lemma TakeIsReached(r: seq<Key>, s: set<Key>, n: nat)
    requires Lists(r, s) && 0 < n <= |r|
    ensures Descends(r[..n]) && forall k :: k in r[..n] <==> k in s && !Before(k, r[n - 1])
  {
    Rejoin(r, n);
    assert forall i | 0 <= i < n :: !Before(r[i], r[n - 1]);
    assert forall i | n <= i < |r| :: Before(r[i], r[n - 1]);
  }

  // ---- following the cursor over an unchanged history ----

  /** The rows a client collects by following `next_cursor` to the end. */
  ghost function Walk(s: set<Key>, cursor: Option<Key>, size: nat): seq<Key>
    requires size > 0
    decreases |Below(s, cursor)|
  {
    var p := PageOf(s, cursor, size);
    if p.next.None? then p.rows
    else
      PageMakesProgress(s, cursor, size);
      p.rows + Walk(s, p.next, size)
  }

  lemma PageIsAPrefix(s: set<Key>, cursor: Option<Key>, size: nat)
    ensures var p, all := PageOf(s, cursor, size), Descending(Below(s, cursor));
            if |all| <= size then p == Page(all, None) else p.rows == all[..size] && (size > 0 ==> p.next == Some(all[size - 1]))
  {}

  /** What a descending listing holds after its first `n` rows. */
  lemma DropIsBelow(r: seq<Key>, s: set<Key>, n: nat)
    requires Lists(r, s) && 0 < n <= |r|
    ensures Lists(r[n..], Below(s, Some(r[n - 1])))
  {
    Rejoin(r, n);
    assert forall i | 0 <= i < n :: !Before(r[i], r[n - 1]);
  }

  lemma BelowBelow(s: set<Key>, cursor: Option<Key>, next: Key)
    requires next in Below(s, cursor)
    ensures Below(Below(s, cursor), Some(next)) == Below(s, Some(next))
  {}

  lemma PageMakesProgress(s: set<Key>, cursor: Option<Key>, size: nat)
    requires size > 0 && PageOf(s, cursor, size).next.Some?
    ensures var next := PageOf(s, cursor, size).next;
            |Below(s, next)| == |Below(s, cursor)| - size && Descending(Below(s, next)) == Descending(Below(s, cursor))[size..]
  {
    PageIsAPrefix(s, cursor, size);
    var below := Below(s, cursor);
    var all := Descending(below);
    DropIsBelow(all, below, size);
    BelowBelow(s, cursor, all[size - 1]);
    ListingIsUnique(all[size..], Below(s, Some(all[size - 1])));
  }

  lemma Rejoin(r: seq<Key>, n: nat)
    requires n <= |r|
    ensures r == r[..n] + r[n..]
  {}

  /** The pages, put together, are the whole filtered history in descending order. */
  lemma {:induction false} WalkListsEverything(s: set<Key>, cursor: Option<Key>, size: nat)
    requires size > 0
    ensures Walk(s, cursor, size) == Descending(Below(s, cursor))
    decreases |Below(s, cursor)|
  {
    PageIsAPrefix(s, cursor, size);
    var next := PageOf(s, cursor, size).next;
    if next.Some? {
      PageMakesProgress(s, cursor, size);
      WalkListsEverything(s, next, size);
      Rejoin(Descending(Below(s, cursor)), size);
    }
  }

  /** The row passes every filter that is set. */
  ghost predicate Asked(f: Filter, k: Key, line: Line) {
    && (f.from == None || f.from.value <= k.at) && (f.to == None || k.at < f.to.value)
    && (f.kind == None || f.kind == Some(line.kind)) && (f.status == None || f.status == Some(line.status))
    && (f.direction == None || (f.direction.value == Incoming <==> line.signed > 0))
  }

  /** Newest first; rows of one time by ID. */
  ghost predicate NewestFirst(r: seq<Key>) {
    forall i, j | 0 <= i < j < |r| :: r[j].at < r[i].at || (r[j].at == r[i].at && r[j].id < r[i].id)
  }

  /** Following the cursor to the end yields the rows asked for, each once, newest first. */
  lemma HistoryPagesAreComplete(h: map<Key, Line>, f: Filter, size: nat)
    requires size > 0
    ensures var walk := Walk(Matching(h, f), None, size);
            && walk == Descending(Matching(h, f)) && NewestFirst(walk)
            && forall k :: k in walk <==> k in h && Asked(f, k, h[k])
  {
    WalkListsEverything(Matching(h, f), None, size);
    assert Below(Matching(h, f), None) == Matching(h, f);
    MatchingIsAsked(h, f);
  }

  lemma MatchingIsAsked(h: map<Key, Line>, f: Filter)
    ensures forall k :: k in Matching(h, f) <==> k in h && Asked(f, k, h[k])
  {
    forall k | k in h
      ensures Matches(f, k, h[k]) <==> Asked(f, k, h[k])
    {
      assert f.direction.Some? ==> f.direction.value == Incoming || f.direction.value == Outgoing;
    }
  }

  // ---- following the cursor while the history changes ----

  /** Request `i` sees the filtered history `seen[i]` and uses the cursor that request `i - 1` returned. */
  ghost predicate Followed(seen: seq<set<Key>>, cursors: seq<Option<Key>>, size: nat) {
    && |cursors| == |seen| + 1 && cursors[0] == None
    && (forall i | 0 < i < |seen| :: cursors[i].Some?)
    && (forall i | 0 <= i < |seen| :: cursors[i + 1] == PageOf(seen[i], cursors[i], size).next)
  }

  ghost function RowsAt(seen: seq<set<Key>>, cursors: seq<Option<Key>>, size: nat, i: nat): seq<Key>
    requires i < |seen| && i < |cursors|
  {
    PageOf(seen[i], cursors[i], size).rows
  }

  lemma NextIsBelow(s: set<Key>, cursor: Option<Key>, size: nat)
    requires size > 0
    ensures var next := PageOf(s, cursor, size).next;
            next.Some? && cursor.Some? ==> Before(next.value, cursor.value)
  {
    PageIsAPrefix(s, cursor, size);
  }

  lemma {:induction false} CursorsDescend(seen: seq<set<Key>>, cursors: seq<Option<Key>>, size: nat, i: nat, j: nat)
    requires size > 0 && Followed(seen, cursors, size) && 0 < i < j < |cursors| && cursors[j].Some?
    ensures Before(cursors[j].value, cursors[i].value)
  {
    NextIsBelow(seen[j - 1], cursors[j - 1], size);
    if i < j - 1 {
      CursorsDescend(seen, cursors, size, i, j - 1);
    }
  }

  /** Whatever is inserted or removed between requests, a later page only holds older rows: no row comes twice. */
  lemma NoDuplicates(seen: seq<set<Key>>, cursors: seq<Option<Key>>, size: nat, i: nat, j: nat, k: Key, l: Key)
    requires size > 0 && Followed(seen, cursors, size) && i < j < |seen|
    requires k in RowsAt(seen, cursors, size, i) && l in RowsAt(seen, cursors, size, j)
    ensures Before(l, k)
  {
    PageIsAnInterval(seen[i], cursors[i], size);
    PageIsAnInterval(seen[j], cursors[j], size);
    if i + 1 < j {
      CursorsDescend(seen, cursors, size, i + 1, j);
    }
  }

  /** The first request whose page reaches down to `k`. */
  lemma {:induction false} SomePageReaches(cursors: seq<Option<Key>>, k: Key, n: nat) returns (i: nat)
    requires n + 1 < |cursors| && cursors[0] == None && Reached(k, cursors[n + 1])
    requires forall j | 0 < j <= n :: cursors[j].Some?
    ensures i <= n && Reached(k, cursors[i + 1]) && (cursors[i].Some? ==> Before(k, cursors[i].value))
  {
    if n == 0 || Before(k, cursors[n].value) {
      i := n;
    } else {
      i := SomePageReaches(cursors, k, n - 1);
    }
  }

  /** A row that matches in every request of a finished walk is on exactly one page. */
  lemma SteadyRowsAppearOnce(seen: seq<set<Key>>, cursors: seq<Option<Key>>, size: nat, k: Key) returns (i: nat)
    requires size > 0 && Followed(seen, cursors, size) && seen != [] && cursors[|seen|] == None
    requires forall j | 0 <= j < |seen| :: k in seen[j]
    ensures i < |seen| && k in RowsAt(seen, cursors, size, i)
    ensures forall j | 0 <= j < |seen| && j != i :: k !in RowsAt(seen, cursors, size, j)
  {
    i := SomePageReaches(cursors, k, |seen| - 1);
    PageIsAnInterval(seen[i], cursors[i], size);
    forall j | 0 <= j < |seen| && j != i
      ensures k !in RowsAt(seen, cursors, size, j)
    {
      if k in RowsAt(seen, cursors, size, j) {
        NoDuplicates(seen, cursors, size, if i < j then i else j, if i < j then j else i, k, k);
      }
    }
  }

  /** Every row on a page matched the filter when its page was read. */
  lemma OnlyMatchingRows(seen: seq<set<Key>>, cursors: seq<Option<Key>>, size: nat, i: nat, k: Key)
    requires size > 0 && Followed(seen, cursors, size) && i < |seen| && k in RowsAt(seen, cursors, size, i)
    ensures k in seen[i]
  {
    PageIsAnInterval(seen[i], cursors[i], size);
  }

  ghost function Elements(r: seq<Key>): set<Key> { set k | k in r }

  ghost function RowsUpTo(seen: seq<set<Key>>, cursors: seq<Option<Key>>, size: nat, n: nat): set<Key>
    requires n <= |seen| <= |cursors|
  {
    if n == 0 then {} else RowsUpTo(seen, cursors, size, n - 1) + Elements(RowsAt(seen, cursors, size, n - 1))
  }

  /** However the history changes, a walk over `n` full pages has met `n * size` different rows, so it
      ends as soon as rows stop arriving. */
  lemma {:induction false} WalkEnds(seen: seq<set<Key>>, cursors: seq<Option<Key>>, size: nat, n: nat)
    requires size > 0 && Followed(seen, cursors, size) && n <= |seen| && (n > 0 ==> cursors[n].Some?)
    ensures |RowsUpTo(seen, cursors, size, n)| == n * size
    ensures forall k | k in RowsUpTo(seen, cursors, size, n) :: exists i :: 0 <= i < n && k in RowsAt(seen, cursors, size, i)
  {
    if n > 0 {
      WalkEnds(seen, cursors, size, n - 1);
      var before, rows := RowsUpTo(seen, cursors, size, n - 1), RowsAt(seen, cursors, size, n - 1);
      PageIsAnInterval(seen[n - 1], cursors[n - 1], size);
      DistinctRows(rows);
      forall k | k in before
        ensures k !in rows
      {
        var i :| 0 <= i < n - 1 && k in RowsAt(seen, cursors, size, i);
        NotAgain(seen, cursors, size, i, n - 1, k);
      }
      assert before !! Elements(rows);
    }
  }

  lemma NotAgain(seen: seq<set<Key>>, cursors: seq<Option<Key>>, size: nat, i: nat, j: nat, k: Key)
    requires size > 0 && Followed(seen, cursors, size) && i < j < |seen| && k in RowsAt(seen, cursors, size, i)
    ensures k !in RowsAt(seen, cursors, size, j)
  {
    if k in RowsAt(seen, cursors, size, j) {
      NoDuplicates(seen, cursors, size, i, j, k, k);
    }
  }

  lemma {:induction false} DistinctRows(r: seq<Key>)
    requires Descends(r)
    ensures |Elements(r)| == |r|
  {
    if r != [] {
      var init, last := r[..|r| - 1], r[|r| - 1];
      DistinctRows(init);
      assert Elements(r) == Elements(init) + {last};
      assert last !in init;
    }
  }
}
