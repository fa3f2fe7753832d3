/** The in-memory fixed-window rate limiter, bounded in the number of keys it remembers. */
module RateLimiter {
  import opened Common

  datatype Entry = Entry(count: nat, expiresAt: Time)
  type Entries = map<string, Entry>

  /** `Counted` carries the end of the window the call was counted in. */
  datatype Answer = Invalid | Full | Counted(allowed: bool, windowEnd: Time)

  datatype Call = Request(key: string, limit: int, window: Time, now: Time) | Reset(key: string)

  predicate Live(m: Entries, key: string, now: Time) { key in m && now < m[key].expiresAt }

  function Unexpired(m: Entries, now: Time): Entries { map k | k in m && now < m[k].expiresAt :: m[k] }

  /** The entry a call is counted in: the live one, or a new window. */
  function Bump(m: Entries, key: string, window: Time, now: Time): Entry {
    if Live(m, key, now) then m[key].(count := m[key].count + 1) else Entry(1, now + window)
  }

  /** What is left after a call has dropped its own expired entry and, at capacity, all expired ones. */
  function Swept(m: Entries, key: string, capacity: int, now: Time): Entries {
    var own := if key in m && m[key].expiresAt <= now then m - {key} else m;
    if key !in own && |own| >= capacity then Unexpired(own, now) else own
  }

  function Allowing(m: Entries, capacity: int, c: Call): (Entries, Answer)
    requires c.Request?
  {
    if c.key == "" || c.limit <= 0 || c.window <= 0 then (m, Invalid)
    else
      var swept := Swept(m, c.key, capacity, c.now);
      if c.key !in swept && |swept| >= capacity then (swept, Full)
      else
        var entry := Bump(m, c.key, c.window, c.now);
        (swept[c.key := entry], Counted(entry.count <= c.limit, entry.expiresAt))
  }

  class MemoryRateLimiter {
    var entries: Entries
    const maxEntries: int

    constructor (maxEntries: int)
      ensures this.maxEntries == maxEntries && entries == map[]
    {
      this.maxEntries := maxEntries;
      entries := map[];
    }

    /** `until` is the clock when the remaining time is computed, a moment after `now`. */
    method Allow(key: string, limit: int, window: Time, now: Time, until: Time) returns (answer: Answer, retryAfter: Time)
      modifies this`entries
      ensures (entries, answer) == Allowing(old(entries), maxEntries, Request(key, limit, window, now))
      ensures retryAfter >= 0 && (answer.Counted? ==> retryAfter >= answer.windowEnd - until)
      ensures answer.Counted? && until < answer.windowEnd ==> retryAfter == answer.windowEnd - until
    {
      if key == "" || limit <= 0 || window <= 0 { return Invalid, 0; }
      var found := key in entries;
      if found && !(now < entries[key].expiresAt) {
        entries := entries - {key};
        found := false;
      }
      var entry: Entry;
      if !found {
        if |entries| >= maxEntries { RemoveExpired(now); }
        if |entries| >= maxEntries { return Full, 0; }
        entry := Entry(0, now + window);
      } else {
        entry := entries[key];
      }
      entry := entry.(count := entry.count + 1);
      entries := entries[key := entry];
      return Counted(entry.count <= limit, entry.expiresAt), if entry.expiresAt - until > 0 then entry.expiresAt - until else 0;
    }

    method RemoveExpired(now: Time)
      modifies this`entries
      ensures entries == Unexpired(old(entries), now)
    {
      var todo := entries.Keys;
      while todo != {}
        invariant todo <= entries.Keys
        invariant forall k | k in entries :: k in old(entries) && entries[k] == old(entries)[k]
        invariant forall k | k in old(entries) && k !in todo :: k in entries <==> now < old(entries)[k].expiresAt
        decreases |todo|
      {
        var k :| k in todo;
        if !(now < entries[k].expiresAt) {
          entries := entries - {k};
        }
        todo := todo - {k};
      }
    }

    method Clear(key: string)
      modifies this`entries
      ensures entries == old(entries) - {key}
    {
      entries := entries - {key};
    }
  }

  // ---- the unbounded counter it stands for ----

  /** A fixed-window counter that never forgets a key. */
  function Reference(m: Entries, c: Call): (Entries, Answer)
    requires c.Request?
  {
    var entry := Bump(m, c.key, c.window, c.now);
    (m[c.key := entry], Counted(entry.count <= c.limit, entry.expiresAt))
  }

  /** The limiter holds exactly the windows of the counter that are still open, and perhaps old ones. */
  ghost predicate Simulates(m: Entries, r: Entries, now: Time) {
    && (forall k | k in m :: k in r && m[k] == r[k])
    && (forall k | Live(r, k, now) :: k in m)
  }

  lemma SweptKeepsLive(m: Entries, key: string, capacity: int, now: Time)
    ensures var s := Swept(m, key, capacity, now);
            && (forall k | k in s :: k in m && s[k] == m[k])
            && (forall k | Live(m, k, now) :: k in s)
            && (key in s ==> Live(m, key, now))
  {}

  /** A call that is answered gets the counter's answer, and the two stay in step. */
  lemma RequestSimulates(m: Entries, r: Entries, capacity: int, c: Call, last: Time)
    requires c.Request? && Simulates(m, r, last) && last <= c.now
    ensures var m', answer := Allowing(m, capacity, c).0, Allowing(m, capacity, c).1;
            if answer.Counted? then answer == Reference(r, c).1 && Simulates(m', Reference(r, c).0, c.now)
            else Simulates(m', r, c.now)
  {
    SweptKeepsLive(m, c.key, capacity, c.now);
    assert Live(m, c.key, c.now) <==> Live(r, c.key, c.now);
  }

  // ---- whole runs ----

  function After(m: Entries, capacity: int, c: Call): Entries {
    if c.Request? then Allowing(m, capacity, c).0 else m - {c.key}
  }

  function Run(capacity: int, calls: seq<Call>): Entries {
    if calls == [] then map[] else After(Run(capacity, calls[..|calls| - 1]), capacity, calls[|calls| - 1])
  }

  function AnswerAt(capacity: int, calls: seq<Call>, i: nat): Answer
    requires i < |calls| && calls[i].Request?
  {
    Allowing(Run(capacity, calls[..i]), capacity, calls[i]).1
  }

  /** The counter fed with the calls the limiter answered. */
  function Fed(capacity: int, calls: seq<Call>): Entries {
    if calls == [] then map[]
    else
      var n := |calls| - 1;
      var r, c := Fed(capacity, calls[..n]), calls[n];
      if c.Reset? then r - {c.key}
      else if Allowing(Run(capacity, calls[..n]), capacity, c).1.Counted? then Reference(r, c).0
      else r
  }

  /** The clock never runs backwards; `Latest` is its last reading. */
  function Latest(calls: seq<Call>, start: Time): Time {
    if calls == [] then start
    else if calls[|calls| - 1].Request? then calls[|calls| - 1].now
    else Latest(calls[..|calls| - 1], start)
  }

  ghost predicate Monotone(calls: seq<Call>, start: Time) {
    forall i | 0 <= i < |calls| && calls[i].Request? :: Latest(calls[..i], start) <= calls[i].now
  }

  lemma MonotonePrefix(calls: seq<Call>, start: Time, n: nat)
    requires Monotone(calls, start) && n <= |calls|
    ensures Monotone(calls[..n], start)
  {
    forall i | 0 <= i < n && calls[..n][i].Request?
      ensures Latest(calls[..n][..i], start) <= calls[..n][i].now
    {
      assert calls[..n][..i] == calls[..i];
    }
  }

  lemma {:induction false} RunSimulates(capacity: int, calls: seq<Call>, start: Time)
    requires Monotone(calls, start)
    ensures Simulates(Run(capacity, calls), Fed(capacity, calls), Latest(calls, start))
  {
    if calls != [] {
      var n := |calls| - 1;
      MonotonePrefix(calls, start, n);
      RunSimulates(capacity, calls[..n], start);
      if calls[n].Request? {
        RequestSimulates(Run(capacity, calls[..n]), Fed(capacity, calls[..n]), capacity, calls[n], Latest(calls[..n], start));
      }
    }
  }

  /** With a clock that never runs backwards, every answered call gets the verdict of the unbounded counter. */
  lemma SameVerdicts(capacity: int, calls: seq<Call>, start: Time, i: nat)
    requires Monotone(calls, start) && i < |calls| && calls[i].Request? && AnswerAt(capacity, calls, i).Counted?
    ensures AnswerAt(capacity, calls, i) == Reference(Fed(capacity, calls[..i]), calls[i]).1
  {
    MonotonePrefix(calls, start, i);
    RunSimulates(capacity, calls[..i], start);
    RequestSimulates(Run(capacity, calls[..i]), Fed(capacity, calls[..i]), capacity, calls[i], Latest(calls[..i], start));
  }

  lemma UnexpiredIsSmaller(m: Entries, now: Time)
    ensures |Unexpired(m, now)| <= |m|
  {
    SubsetSize(Unexpired(m, now).Keys, m.Keys);
  }

  /** The map never exceeds its capacity, whatever the clock does. */
  lemma {:induction false} CapacityHolds(capacity: nat, calls: seq<Call>)
    ensures |Run(capacity, calls)| <= capacity
  {
    if calls != [] {
      var n := |calls| - 1;
      var m, c := Run(capacity, calls[..n]), calls[n];
      CapacityHolds(capacity, calls[..n]);
      SubsetSize((m - {c.key}).Keys, m.Keys);
      if c.Request? {
        var own := if c.key in m && m[c.key].expiresAt <= c.now then m - {c.key} else m;
        UnexpiredIsSmaller(own, c.now);
      }
    }
  }

  /** It refuses for lack of room only when that many other windows are open. */
  lemma FullMeansOpenWindows(m: Entries, capacity: nat, c: Call)
    requires c.Request? && Allowing(m, capacity, c).1 == Full
    ensures c.key !in Unexpired(m, c.now) && |Unexpired(m, c.now)| >= capacity
  {
    var own := if c.key in m && m[c.key].expiresAt <= c.now then m - {c.key} else m;
    assert Unexpired(own, c.now) == Unexpired(m, c.now);
  }

  // ---- how many calls a window lets through ----

  predicate AllowedIn(capacity: int, calls: seq<Call>, i: nat, key: string, end: Time)
    requires i < |calls|
  {
    calls[i].Request? && calls[i].key == key && AnswerAt(capacity, calls, i) == Counted(true, end)
  }

  function AllowedCount(capacity: int, calls: seq<Call>, key: string, end: Time): nat {
    if calls == [] then 0
    else AllowedCount(capacity, calls[..|calls| - 1], key, end) + if AllowedIn(capacity, calls, |calls| - 1, key, end) then 1 else 0
  }

  /** One limit and one window length for the key, and no reset of it. */
  ghost predicate Fixed(calls: seq<Call>, key: string, limit: nat, window: Time) {
    forall i | 0 <= i < |calls| && calls[i].key == key :: calls[i].Request? && calls[i].limit == limit && calls[i].window == window
  }

  /** The counter has no window ending later than any it opened, and no count below the calls allowed. */
  ghost predicate Bounded(capacity: int, calls: seq<Call>, key: string, limit: nat, end: Time) {
    var r, n := Fed(capacity, calls), AllowedCount(capacity, calls, key, end);
    && n <= limit
    && (n > 0 ==> key in r && end <= r[key].expiresAt)
    && (key in r && r[key].expiresAt == end ==> n <= r[key].count)
  }

  lemma OneMoreCall(capacity: int, calls: seq<Call>, start: Time, key: string, limit: nat, window: Time, end: Time)
    requires calls != [] && Monotone(calls, start) && Fixed(calls, key, limit, window) && limit > 0 && window > 0
    requires Bounded(capacity, calls[..|calls| - 1], key, limit, end)
    ensures Bounded(capacity, calls, key, limit, end)
  {
    var n := |calls| - 1;
    var c := calls[n];
    if c.Request? && AnswerAt(capacity, calls, n).Counted? {
      SameVerdicts(capacity, calls, start, n);
    }
  }

  /** For a fixed limit and window without resets, at most `limit` calls per key are allowed in each window. */
  lemma {:induction false} AtMostLimitPerWindow(capacity: int, calls: seq<Call>, start: Time, key: string, limit: nat, window: Time, end: Time)
    requires Monotone(calls, start) && Fixed(calls, key, limit, window) && limit > 0 && window > 0
    ensures Bounded(capacity, calls, key, limit, end)
    ensures AllowedCount(capacity, calls, key, end) <= limit
  {
    if calls != [] {
      MonotonePrefix(calls, start, |calls| - 1);
      AtMostLimitPerWindow(capacity, calls[..|calls| - 1], start, key, limit, window, end);
      OneMoreCall(capacity, calls, start, key, limit, window, end);
    }
  }

  lemma {:induction false} WindowsOpenInThePast(capacity: int, calls: seq<Call>, start: Time, key: string, limit: nat, window: Time)
    requires Monotone(calls, start) && Fixed(calls, key, limit, window) && window > 0
    ensures key in Fed(capacity, calls) ==> Fed(capacity, calls)[key].expiresAt <= Latest(calls, start) + window
  {
    if calls != [] {
      MonotonePrefix(calls, start, |calls| - 1);
      WindowsOpenInThePast(capacity, calls[..|calls| - 1], start, key, limit, window);
    }
  }

  /** The calls of a window all fall into its span of time. */
  lemma WindowSpan(capacity: int, calls: seq<Call>, start: Time, key: string, limit: nat, window: Time, end: Time, i: nat)
    requires Monotone(calls, start) && Fixed(calls, key, limit, window) && limit > 0 && window > 0
    requires i < |calls| && AllowedIn(capacity, calls, i, key, end)
    ensures end - window <= calls[i].now < end
  {
    SameVerdicts(capacity, calls, start, i);
    MonotonePrefix(calls, start, i);
    WindowsOpenInThePast(capacity, calls[..i], start, key, limit, window);
  }

  // ---- which calls a window lets through ----

  /** How many calls with the key have been counted in the window that ends at `end`. */
  function CountedCalls(capacity: int, calls: seq<Call>, key: string, end: Time): nat {
    if calls == [] then 0
    else
      var n := |calls| - 1;
      CountedCalls(capacity, calls[..n], key, end) +
      if calls[n].Request? && calls[n].key == key && AnswerAt(capacity, calls, n).Counted? && AnswerAt(capacity, calls, n).windowEnd == end then 1 else 0
  }

  /** The counter's count is the number of calls in its window, and no later window has been opened. */
  ghost predicate CountsCalls(capacity: int, calls: seq<Call>, key: string) {
    var r := Fed(capacity, calls);
    if key in r then
      && r[key].count >= 1 && r[key].count == CountedCalls(capacity, calls, key, r[key].expiresAt)
      && forall end | end > r[key].expiresAt :: CountedCalls(capacity, calls, key, end) == 0
    else forall end :: CountedCalls(capacity, calls, key, end) == 0
  }

  lemma OneMoreCounted(capacity: int, calls: seq<Call>, start: Time, key: string, limit: nat, window: Time)
    requires calls != [] && Monotone(calls, start) && Fixed(calls, key, limit, window) && limit > 0 && window > 0
    requires CountsCalls(capacity, calls[..|calls| - 1], key)
    ensures CountsCalls(capacity, calls, key)
  {
    var n := |calls| - 1;
    var c := calls[n];
    if c.Request? && AnswerAt(capacity, calls, n).Counted? {
      SameVerdicts(capacity, calls, start, n);
    }
  }

  lemma {:induction false} CountIsCalls(capacity: int, calls: seq<Call>, start: Time, key: string, limit: nat, window: Time)
    requires Monotone(calls, start) && Fixed(calls, key, limit, window) && limit > 0 && window > 0
    ensures CountsCalls(capacity, calls, key)
  {
    if calls != [] {
      MonotonePrefix(calls, start, |calls| - 1);
      CountIsCalls(capacity, calls[..|calls| - 1], start, key, limit, window);
      OneMoreCounted(capacity, calls, start, key, limit, window);
    }
  }

  /** An answered call is allowed exactly when it is one of the first `limit` of its window; the first call of a window
      opens it for the full length. */
  lemma FirstCallsAreAllowed(capacity: int, calls: seq<Call>, start: Time, key: string, limit: nat, window: Time, i: nat)
    requires Monotone(calls, start) && Fixed(calls, key, limit, window) && limit > 0 && window > 0
    requires i < |calls| && calls[i].key == key && calls[i].Request? && AnswerAt(capacity, calls, i).Counted?
    ensures var answer := AnswerAt(capacity, calls, i);
      var nth := CountedCalls(capacity, calls[..i + 1], key, answer.windowEnd);
      nth > 0 && (answer.allowed <==> nth <= limit) && (nth == 1 ==> answer.windowEnd == calls[i].now + window)
  {
    SameVerdicts(capacity, calls, start, i);
    MonotonePrefix(calls, start, i);
    FixedPrefix(calls, key, limit, window, i);
    CountIsCalls(capacity, calls[..i], start, key, limit, window);
    assert calls[..i + 1][..i] == calls[..i];
    WindowsOpenInThePast(capacity, calls[..i], start, key, limit, window);
  }

  lemma FixedPrefix(calls: seq<Call>, key: string, limit: nat, window: Time, n: nat)
    requires Fixed(calls, key, limit, window) && n <= |calls|
    ensures Fixed(calls[..n], key, limit, window)
  {}

  /** A refused call is refused for its parameters, or because that many other windows are open. */
  lemma RefusedExactly(m: Entries, capacity: nat, c: Call)
    requires c.Request?
    ensures Allowing(m, capacity, c).1 == Invalid <==> c.key == "" || c.limit <= 0 || c.window <= 0
    ensures Allowing(m, capacity, c).1 == Full ==> c.key !in Unexpired(m, c.now) && |Unexpired(m, c.now)| >= capacity
    ensures Live(m, c.key, c.now) && Allowing(m, capacity, c).1 != Invalid ==> Allowing(m, capacity, c).1.Counted?
  {
    if Allowing(m, capacity, c).1 == Full {
      FullMeansOpenWindows(m, capacity, c);
    }
  }
}
