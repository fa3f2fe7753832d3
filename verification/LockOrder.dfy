/** Deadlock freedom: every transaction takes at most one key row, then at most one existing
    transaction row, then account rows in strictly ascending order. */
module LockOrder {
  import opened Common
  import opened Tables
  import opened Operations
  import opened Interleaving
  import opened Serializability
  import opened CommitOrder

  /** The global lock order. */
  function Rank(r: Row): nat {
    match r
    case KeyLock(_) => 0
    case TxnLock(_) => 1
    case AccountLock(a) => 2 + a
  }

  /** The locks a transaction can hold at each stage. */
  ghost predicate LocksInOrder(w: Work) {
    && (forall i, j | 0 <= i < j < |w.ids| :: w.ids[i] < w.ids[j])
    && (w.stage.KeyDelete? || w.stage.KeyRead? || w.stage.ReadOriginal? ==> w.held == {})
    && (w.stage.KeyInsert? || w.stage.Resolve? ==> forall r | r in w.held :: r.KeyLock?)
    && (w.stage.ListPostings? ==> forall r | r in w.held :: r.TxnLock?)
    && (w.stage.Lock? ==> forall r | r in w.held && r.AccountLock? :: exists j :: 0 <= j < w.stage.i && j < |w.ids| && w.ids[j] == r.a)
    && (w.stage.KeyInsert? && w.delta.dropped == {} ==> w.held == {})
    && (forall r | r in w.held && r.KeyLock? :: w.op.KeyedTransfer? && r.k == KeyOf(w.op))
  }

  lemma BeginInOrder(op: Op, now: Time)
    ensures LocksInOrder(Begin(op, now))
  {}

  lemma ExecInOrder(db: Db, w: Work, w': Work)
    requires Good(db, w) && LocksInOrder(w) && !w.stage.Commit? && Exec(db, w) == Next(w')
    ensures LocksInOrder(w')
  {
    if OnKey(w.stage) {
      KeyInOrder(db, w, w');
    } else if Reading(w.stage) {
      ReadInOrder(db, w, w');
    } else {
      LaterInOrder(db, w, w');
    }
  }

  lemma LaterInOrder(db: Db, w: Work, w': Work)
    requires Shaped(w) && LocksInOrder(w) && !OnKey(w.stage) && !Reading(w.stage) && !w.stage.Commit? && Exec(db, w) == Next(w')
    ensures LocksInOrder(w')
  {
    if Writing(w.stage) {
      WriteTakesNoLock(db, w, w');
    }
  }

  lemma WriteTakesNoLock(db: Db, w: Work, w': Work)
    requires Shaped(w) && Writing(w.stage) && ExecWrite(db, w) == Next(w')
    ensures w'.held == w.held && w'.ids == w.ids && w'.op == w.op && !OnKey(w'.stage) && !Reading(w'.stage)
  {}

  lemma KeyInOrder(db: Db, w: Work, w': Work)
    requires Good(db, w) && LocksInOrder(w) && OnKey(w.stage) && Exec(db, w) == Next(w')
    ensures LocksInOrder(w')
  {}

  lemma ReadInOrder(db: Db, w: Work, w': Work)
    requires Shaped(w) && LocksInOrder(w) && Reading(w.stage) && Exec(db, w) == Next(w')
    ensures LocksInOrder(w')
  {
    if w.stage.Lock? && w'.stage.Lock? {
      forall r | r in w'.held && r.AccountLock?
        ensures exists j :: 0 <= j < w'.stage.i && j < |w'.ids| && w'.ids[j] == r.a
      {
        if r in w.held {
          var j :| 0 <= j < w.stage.i && j < |w.ids| && w.ids[j] == r.a;
          assert w'.ids[j] == r.a;
        } else {
          assert w'.ids[w.stage.i] == r.a;
        }
      }
    }
  }

  /** A row still to be locked ranks above every row already held. */
  lemma RequestRanksAbove(db: Db, w: Work, h: Row)
    requires Shaped(w) && LocksInOrder(w) && Request(db, w).Some? && Request(db, w).value !in w.held && h in w.held
    ensures Rank(h) < Rank(Request(db, w).value)
  {
    if w.stage.Lock? && h.AccountLock? {
      var j :| 0 <= j < w.stage.i && j < |w.ids| && w.ids[j] == h.a;
    }
  }

  // ---- the waits-for graph ----

  ghost predicate Waits(s: Sys, p: Pid) {
    && p in s.work && Request(s.db, s.work[p]).Some? && !Free(s, p, Request(s.db, s.work[p]).value)
  }

  ghost predicate WaitsFor(s: Sys, p: Pid, q: Pid) {
    p in s.work && q in s.work && p != q && Request(s.db, s.work[p]).Some? && Request(s.db, s.work[p]).value in s.work[q].held
  }

  function Wanted(s: Sys, p: Pid): nat
    requires p in s.work && Request(s.db, s.work[p]).Some?
  {
    Rank(Request(s.db, s.work[p]).value)
  }

  ghost predicate Locking(s: Sys) { SysInv(s) && forall p | p in s.work :: LocksInOrder(s.work[p]) }

  /** Whoever is waited for, if waiting in turn, waits for something higher. */
  lemma WaitClimbs(s: Sys, p: Pid, q: Pid)
    requires Locking(s) && WaitsFor(s, p, q) && Waits(s, q)
    ensures Wanted(s, p) < Wanted(s, q)
  {
    assert WorkOk(s, s.work[q]);
    var mine, theirs := Request(s.db, s.work[p]).value, Request(s.db, s.work[q]).value;
    var holder :| holder in s.work && holder != q && theirs in s.work[holder].held;
    assert Apart(s.work[q], s.work[holder]);
    RequestRanksAbove(s.db, s.work[q], mine);
  }

  ghost predicate Chain(s: Sys, c: seq<Pid>) { forall i, j | 0 <= i && j == i + 1 < |c| :: WaitsFor(s, c[i], c[j]) }

  lemma WaitingForWaits(s: Sys, p: Pid, q: Pid)
    requires WaitsFor(s, p, q)
    ensures Waits(s, p)
  {}

  ghost predicate WaitsClimb(s: Sys) { forall p, q | WaitsFor(s, p, q) && Waits(s, q) :: Wanted(s, p) < Wanted(s, q) }

  lemma {:induction false} ChainClimbs(s: Sys, c: seq<Pid>)
    requires WaitsClimb(s) && |c| >= 2 && Chain(s, c) && Waits(s, c[|c| - 1])
    ensures c[0] in s.work && Request(s.db, s.work[c[0]]).Some? && Wanted(s, c[0]) < Wanted(s, c[|c| - 1])
  {
    var n := |c| - 1;
    assert WaitsFor(s, c[n - 1], c[n]);
    if n > 1 {
      WaitingForWaits(s, c[n - 1], c[n]);
      ChainClimbs(s, c[..n]);
    }
  }

  /** The waits-for graph has no cycle. */
  lemma NoCycle(s: Sys, c: seq<Pid>)
    requires Locking(s) && |c| >= 2 && Chain(s, c)
    ensures c[0] != c[|c| - 1]
  {
    if c[0] == c[|c| - 1] {
      assert WaitsFor(s, c[0], c[1]);
      WaitingForWaits(s, c[0], c[1]);
      forall p, q | WaitsFor(s, p, q) && Waits(s, q)
        ensures Wanted(s, p) < Wanted(s, q)
      {
        WaitClimbs(s, p, q);
      }
      ChainClimbs(s, c);
    }
  }

  lemma {:induction false} HighestWaiter(s: Sys, ps: set<Pid>) returns (p: Pid)
    requires ps != {} && forall q | q in ps :: q in s.work && Request(s.db, s.work[q]).Some?
    ensures p in ps && forall q | q in ps :: Wanted(s, q) <= Wanted(s, p)
  {
    p :| p in ps;
    var rest := ps - {p};
    if rest != {} {
      var other := HighestWaiter(s, rest);
      assert forall q | q in ps :: q == p || q in rest;
      if Wanted(s, p) < Wanted(s, other) { p := other; }
    } else {
      assert ps == {p};
    }
  }

  lemma HolderClimbs(s: Sys, p: Pid) returns (q: Pid)
    requires Locking(s) && Waits(s, p)
    ensures q in s.work && (Waits(s, q) ==> Wanted(s, p) < Wanted(s, q))
  {
    var wanted := Request(s.db, s.work[p]).value;
    q :| q in s.work && q != p && wanted in s.work[q].held;
    if Waits(s, q) {
      WaitClimbs(s, p, q);
    }
  }

  lemma NotAllWait(s: Sys, waiting: set<Pid>) returns (q: Pid)
    requires Locking(s) && waiting != {} && forall p | p in waiting :: Waits(s, p)
    ensures q in s.work && q !in waiting
  {
    var top := HighestWaiter(s, waiting);
    q := HolderClimbs(s, top);
  }

  ghost predicate CanStep(s: Sys, p: Pid) { exists s' :: Advances(s, s', p) || Commits(s, s', p) }

  /** As long as any transaction is open, one of them can run its next statement or commit. */
  lemma SomeoneCanMove(s: Sys) returns (p: Pid, s': Sys)
    requires Locking(s) && s.work != map[]
    ensures Advances(s, s', p) || Commits(s, s', p)
  {
    p :| p in s.work;
    var waiting := set q | q in s.work && Waits(s, q);
    if p in waiting {
      p := NotAllWait(s, waiting);
    }
    s' := NextState(s, p);
  }

  lemma NextState(s: Sys, p: Pid) returns (s': Sys)
    requires SysInv(s) && p in s.work && !Waits(s, p)
    ensures Advances(s, s', p) || Commits(s, s', p)
  {
    assert WorkOk(s, s.work[p]);
    var w := s.work[p];
    if w.stage.Commit? {
      s' := s.(db := Merge(s.db, w.delta), work := s.work - {p}, log := if Replays(w) then s.log else s.log + [Step(w.op, w.now)]);
    } else if Exec(s.db, w).Next? {
      s' := s.(work := s.work[p := Exec(s.db, w).w]);
    } else {
      s' := s.(work := s.work - {p});
    }
  }

  // ---- every statement brings its transaction closer to the end ----

  /** Before the accounts to lock are known; before the plan is known; after. */
  function Phase(stage: Stage): nat {
    if OnKey(stage) || stage.Resolve? || stage.ReadOriginal? || stage.ListPostings? then 2
    else if stage.Lock? || stage.Decide? then 1
    else 0
  }

  /** The statements left in the phase, at most. */
  function Left(w: Work): int {
    match w.stage
    case KeyDelete => 5 case KeyInsert => 4 case KeyRead => 3 case Resolve => 2 case ReadOriginal => 2 case ListPostings => 1
    case Lock(i) => |w.ids| - i + 1
    case Decide => 1
    case Insert => (if w.plan.Some? then |w.plan.value.lines| + |w.plan.value.moves| else 0) + 6
    case Post(i) => (if w.plan.Some? then |w.plan.value.lines| - i + |w.plan.value.moves| else 0) + 5
    case Adjust(i) => (if w.plan.Some? then |w.plan.value.moves| - i else 0) + 4
    case MarkPosted => 4 case MarkReversed => 3 case CompleteKey => 2 case UpdateAccount => 2 case Commit => 1
  }

  lemma LeftIsPositive(w: Work)
    requires Shaped(w)
    ensures Left(w) > 0
  {}

  /** Each statement ends its phase, or leaves one statement fewer in it. */
  lemma StatementsRunOut(db: Db, w: Work, w': Work)
    requires Shaped(w) && !w.stage.Commit? && Exec(db, w) == Next(w')
    ensures Phase(w'.stage) < Phase(w.stage) || (Phase(w'.stage) == Phase(w.stage) && Left(w') < Left(w))
  {
    if Phase(w.stage) == 2 {
      FirstPhase(db, w, w');
    } else if Writing(w.stage) {
      WritesRunOut(db, w, w');
    }
  }

  lemma FirstPhase(db: Db, w: Work, w': Work)
    requires Shaped(w) && Phase(w.stage) == 2 && Exec(db, w) == Next(w')
    ensures Phase(w'.stage) < 2 || Left(w') < Left(w)
  {}

  lemma WritesRunOut(db: Db, w: Work, w': Work)
    requires Shaped(w) && Writing(w.stage) && ExecWrite(db, w) == Next(w')
    ensures Phase(w'.stage) == 0 && Left(w') < Left(w)
  {
    if w.stage.Insert? || w.stage.Post? || w.stage.Adjust? {
      LinesRunOut(db, w, w');
    }
  }

  lemma LinesRunOut(db: Db, w: Work, w': Work)
    requires Shaped(w) && (w.stage.Insert? || w.stage.Post? || w.stage.Adjust?) && ExecWrite(db, w) == Next(w')
    ensures Phase(w'.stage) == 0 && Left(w') < Left(w)
  {}

  // ---- so the open transactions can always be finished ----

  /** The statements left to all transactions in one phase. */
  ghost function Load(work: map<Pid, Work>, phase: nat): nat {
    if work == map[] then 0 else var p :| p in work; Weight(work[p], phase) + Load(work - {p}, phase)
  }

  function Weight(w: Work, phase: nat): nat { if Phase(w.stage) == phase && Left(w) > 0 then Left(w) else 0 }

  lemma {:induction false} LoadRemove(work: map<Pid, Work>, phase: nat, p: Pid)
    requires p in work
    ensures Load(work, phase) == Weight(work[p], phase) + Load(work - {p}, phase)
    decreases |work|
  {
    var q :| q in work && Load(work, phase) == Weight(work[q], phase) + Load(work - {q}, phase);
    if q != p {
      LoadRemove(work - {q}, phase, p);
      LoadRemove(work - {p}, phase, q);
      assert work - {p} - {q} == work - {q} - {p};
    }
  }

  lemma LoadReplace(work: map<Pid, Work>, phase: nat, p: Pid, w: Work)
    requires p in work
    ensures Load(work[p := w], phase) == Load(work, phase) - Weight(work[p], phase) + Weight(w, phase)
  {
    LoadRemove(work, phase, p);
    LoadRemove(work[p := w], phase, p);
    assert work[p := w] - {p} == work - {p};
  }

  ghost predicate Lighter(work: map<Pid, Work>, work': map<Pid, Work>) {
    || Load(work', 2) < Load(work, 2)
    || (Load(work', 2) == Load(work, 2) && Load(work', 1) < Load(work, 1))
    || (Load(work', 2) == Load(work, 2) && Load(work', 1) == Load(work, 1) && Load(work', 0) < Load(work, 0))
  }

  lemma RemovalIsLighter(work: map<Pid, Work>, p: Pid)
    requires p in work && Shaped(work[p])
    ensures Lighter(work, work - {p})
  {
    LeftIsPositive(work[p]);
    LoadRemove(work, 2, p);
    LoadRemove(work, 1, p);
    LoadRemove(work, 0, p);
  }

  lemma StatementIsLighter(db: Db, work: map<Pid, Work>, p: Pid, w: Work)
    requires p in work && Shaped(work[p]) && !work[p].stage.Commit? && Exec(db, work[p]) == Next(w)
    ensures Lighter(work, work[p := w])
  {
    LeftIsPositive(work[p]);
    StatementsRunOut(db, work[p], w);
    LoadReplace(work, 2, p, w);
    LoadReplace(work, 1, p, w);
    LoadReplace(work, 0, p, w);
  }

  lemma MoveIsLighter(s: Sys, s': Sys, p: Pid)
    requires Locking(s) && (Advances(s, s', p) || Commits(s, s', p))
    ensures Lighter(s.work, s'.work)
  {
    assert WorkOk(s, s.work[p]);
    if Advances(s, s', p) && Exec(s.db, s.work[p]).Next? {
      StatementIsLighter(s.db, s.work, p, Exec(s.db, s.work[p]).w);
    } else {
      RemovalIsLighter(s.work, p);
    }
  }

  /** Only statements and commits of transactions already open. */
  ghost predicate Finishing(trace: seq<Sys>) {
    trace != [] && forall i: nat | i + 1 < |trace| :: Stepped(trace[i], trace[i + 1])
  }

  ghost predicate Stepped(s: Sys, s': Sys) { exists p :: Advances(s, s', p) || Commits(s, s', p) }

  lemma Prepended(s: Sys, rest: seq<Sys>)
    requires Finishing(rest) && Stepped(s, rest[0])
    ensures Finishing([s] + rest)
  {
    var trace := [s] + rest;
    forall i: nat | i + 1 < |trace|
      ensures Stepped(trace[i], trace[i + 1])
    {
      if i > 0 { assert Stepped(rest[i - 1], rest[i]); }
    }
  }

  lemma GetsLighter(s: Sys) returns (s': Sys)
    requires Locking(s) && s.work != map[]
    ensures Stepped(s, s') && Locking(s') && Lighter(s.work, s'.work)
  {
    var p;
    p, s' := SomeoneCanMove(s);
    MoveIsLighter(s, s', p);
    StepKeepsLocking(s, s');
  }

  /** From every such state the open transactions can all be run to their end, without opening new ones
      and without giving one up. */
  lemma {:induction false} Finishes(s: Sys) returns (trace: seq<Sys>)
    requires Locking(s)
    ensures Finishing(trace) && trace[0] == s && trace[|trace| - 1].work == map[]
    decreases Load(s.work, 2), Load(s.work, 1), Load(s.work, 0)
  {
    if s.work == map[] {
      trace := [s];
    } else {
      var s' := GetsLighter(s);
      var rest := Finishes(s');
      Prepended(s, rest);
      trace := [s] + rest;
    }
  }

  lemma OpensInOrder(s: Sys, s': Sys, p: Pid, op: Op)
    requires Locking(s) && Opens(s, s', p, op)
    ensures forall q | q in s'.work :: LocksInOrder(s'.work[q])
  {
    BeginInOrder(op, s.clock);
  }

  lemma AdvancesInOrder(s: Sys, s': Sys, p: Pid)
    requires Locking(s) && Advances(s, s', p)
    ensures forall q | q in s'.work :: LocksInOrder(s'.work[q])
  {
    assert WorkOk(s, s.work[p]);
    if Exec(s.db, s.work[p]).Next? {
      ExecInOrder(s.db, s.work[p], Exec(s.db, s.work[p]).w);
    }
  }

  lemma NothingNewInOrder(s: Sys, s': Sys)
    requires (forall p | p in s.work :: LocksInOrder(s.work[p])) && s'.work.Keys <= s.work.Keys
    requires forall q | q in s'.work :: s'.work[q] == s.work[q]
    ensures forall q | q in s'.work :: LocksInOrder(s'.work[q])
  {}

  lemma StepInOrder(s: Sys, s': Sys)
    requires Locking(s) && SysStep(s, s')
    ensures forall q | q in s'.work :: LocksInOrder(s'.work[q])
  {
    if p, op :| Opens(s, s', p, op) {
      OpensInOrder(s, s', p, op);
    } else if p :| Advances(s, s', p) {
      AdvancesInOrder(s, s', p);
    } else if p :| RollsBack(s, s', p) || Commits(s, s', p) {
      NothingNewInOrder(s, s');
    } else {
      assert s'.work == s.work;
      NothingNewInOrder(s, s');
    }
  }

  /** The lock discipline holds in every state of every interleaving. */
  lemma StepKeepsLocking(s: Sys, s': Sys)
    requires Locking(s) && SysStep(s, s')
    ensures Locking(s')
  {
    StepIsAtomic(s, s');
    StepInOrder(s, s');
  }

  lemma {:induction false} ReachableLocking(trace: seq<Sys>, i: nat)
    requires Execution(trace) && i < |trace|
    ensures Locking(trace[i])
  {
    if i == 0 {
      InterleavingIsSerial(trace, 0);
    } else {
      ReachableLocking(trace, i - 1);
      assert Linked(trace, i - 1);
      StepKeepsLocking(trace[i - 1], trace[i]);
    }
  }

  /** No interleaving ever deadlocks: there is no cycle of waits, some open transaction can always move,
      and all of them can be brought to their end. */
  lemma NeverDeadlocked(trace: seq<Sys>, i: nat, c: seq<Pid>)
    requires Execution(trace) && i < |trace|
    ensures |c| >= 2 && Chain(trace[i], c) ==> c[0] != c[|c| - 1]
    ensures trace[i].work != map[] ==> exists p :: CanStep(trace[i], p)
    ensures exists rest: seq<Sys> :: Finishing(rest) && rest[0] == trace[i] && rest[|rest| - 1].work == map[]
  {
    ReachableLocking(trace, i);
    if |c| >= 2 && Chain(trace[i], c) {
      NoCycle(trace[i], c);
    }
    if trace[i].work != map[] {
      var p, s' := SomeoneCanMove(trace[i]);
      assert CanStep(trace[i], p);
    }
    var rest := Finishes(trace[i]);
  }
}
