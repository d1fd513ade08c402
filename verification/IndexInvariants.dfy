/** The sorted sets `active` and `running` and the metrics hash agree with the run hashes in
    every reachable state, and `running` enforces the concurrency limit. */
module IndexInvariants {
  import opened RunTypes
  import opened RedisScripts

  // ----- the sorted sets

  /** One key: `active` has exactly the pending runs, scored by their lease; a running run has
      that same score in `running`; a positive score in `running` belongs to a running run. */
  predicate RowOk(s: State, k: RunKey) {
    && (k in s.active <==> k in s.runs && s.runs[k].status.Pending())
    && (k in s.active ==> s.active[k] == s.runs[k].leaseUntil)
    && (k in s.runs && s.runs[k].status == Running ==> k in s.running && s.running[k] == s.runs[k].leaseUntil)
    && (k in s.running ==> k in s.runs && s.runs[k].status.Pending())
    && (k in s.running && s.running[k] > 0 ==> s.runs[k].status == Running)
  }

  ghost predicate IndexInv(s: State) {
    forall k :: RowOk(s, k)
  }

  /** A step writes the row of its own key and no other. */
  lemma OtherRow(s: State, op: Op, k: RunKey)
    requires RowOk(s, k) && (op.Tick? || k != op.k)
    ensures RowOk(Apply(s, op), k)
  {
    hide TakeOver, NewRun, AppendTo, BeginRunning, Finish, CancelRun, PauseRun, ResumeRun,
         Holds, Denies, LiveScores, Move, Bump, Status.Terminal;
  }

  /** The scripts that change the status. */
  lemma OwnRowStatus(s: State, op: Op)
    requires op.DoStart? || op.DoTransition? || op.DoAcquire? || op.DoPause? || op.DoResume?
    requires RowOk(s, op.k)
    ensures RowOk(Apply(s, op), op.k)
  {
    hide Denies, LiveScores, Move, Bump, AddEvent, TrimEvents;
  }

  lemma OwnRowRest(s: State, op: Op)
    requires !op.Tick?
    requires !(op.DoStart? || op.DoTransition? || op.DoAcquire? || op.DoPause? || op.DoResume?)
    requires RowOk(s, op.k)
    ensures RowOk(Apply(s, op), op.k)
  {
    hide Denies, Move, Newest;
  }

  lemma IndexStep(s: State, op: Op)
    requires IndexInv(s)
    ensures IndexInv(Apply(s, op))
  {
    hide Apply, RowOk;
    forall k ensures RowOk(Apply(s, op), k) {
      assert RowOk(s, k);
      if op.Tick? || k != op.k {
        OtherRow(s, op, k);
      } else if op.DoStart? || op.DoTransition? || op.DoAcquire? || op.DoPause? || op.DoResume? {
        OwnRowStatus(s, op);
      } else {
        OwnRowRest(s, op);
      }
    }
  }

  lemma {:induction false} IndexReachable(ops: seq<Op>)
    ensures IndexInv(Execute(EMPTY, ops))
  {
    hide Apply, RowOk;
    if ops == [] {
      forall k ensures RowOk(EMPTY, k) { EmptyRow(k); }
    } else {
      IndexReachable(ops[..|ops| - 1]);
      IndexStep(Execute(EMPTY, ops[..|ops| - 1]), ops[|ops| - 1]);
    }
  }

  lemma EmptyRow(k: RunKey)
    ensures RowOk(EMPTY, k)
  {
  }

  // ----- the metrics hash

  function WithStatus(runs: map<RunKey, Run>, st: Status): set<RunKey> {
    set k | k in runs && runs[k].status == st
  }

  function Total(c: map<Status, int>): int {
    Counter(c, Queued) + Counter(c, Running) + Counter(c, WaitingForInput)
    + Counter(c, Completed) + Counter(c, Failed) + Counter(c, Cancelled) + Counter(c, TimedOut)
  }

  /** A counter never lags behind the runs in its status, and is exact while they are not
      terminal; expiry of a terminal run is not counted back. */
  predicate CounterOk(runs: map<RunKey, Run>, c: map<Status, int>, st: Status) {
    && Counter(c, st) >= |WithStatus(runs, st)|
    && (!st.Terminal() ==> Counter(c, st) == |WithStatus(runs, st)|)
  }

  ghost predicate CountInv(s: State) {
    Total(s.counters) == s.retained && forall st :: CounterOk(s.runs, s.counters, st)
  }

  /** What a step may do to statuses and counters. */
  datatype Shape = Same | Accepted(k: RunKey) | Moved(k: RunKey, from: Status, to: Status) | Expired(k: RunKey)

  ghost predicate HasShape(s: State, s': State, shape: Shape) {
    match shape
    case Same =>
      && s'.runs.Keys == s.runs.Keys && (forall k :: k in s.runs ==> s'.runs[k].status == s.runs[k].status)
      && s'.counters == s.counters && s'.retained == s.retained
    case Accepted(k) =>
      && k !in s.runs && k in s'.runs && s'.runs[k].status == Queued && s'.runs == s.runs[k := s'.runs[k]]
      && s'.counters == Bump(s.counters, Queued, 1) && s'.retained == s.retained + 1
    case Moved(k, from, to) =>
      && k in s.runs && s.runs[k].status == from && from != to
      && k in s'.runs && s'.runs[k].status == to && s'.runs == s.runs[k := s'.runs[k]]
      && s'.counters == Move(s.counters, from, to) && s'.retained == s.retained
    case Expired(k) =>
      && k in s.runs && s.runs[k].status.Terminal() && s'.runs == s.runs - {k}
      && s'.counters == s.counters && s'.retained == s.retained
  }

  lemma OneRunSame(s: State, s': State, k: RunKey)
    requires s'.counters == s.counters && s'.retained == s.retained
    requires s'.runs == s.runs
             || (k in s.runs && k in s'.runs && s'.runs == s.runs[k := s'.runs[k]]
                 && s'.runs[k].status == s.runs[k].status)
    ensures HasShape(s, s', Same)
  {
  }

  lemma SameShape(s: State, op: Op)
    requires op.Tick? || op.DoHeartbeat? || op.DoRelease? || op.DoSetRunId? || op.DoMarkFailed?
    ensures HasShape(s, Apply(s, op), Same)
  {
    hide Status.Terminal, Holds, Status.Pending, Start, Append, Acquire, Transition, Cancel, Pause, Resume, HasShape;
    OneRunSame(s, Apply(s, op), if op.Tick? then 0 else op.k);
  }

  lemma AppendKeepsStatus(r: Run, fence: nat, p: Payload, key: Option<EventKey>)
    ensures AppendTo(r, fence, p, key).status == r.status
  {
  }

  lemma AppendShape(s: State, k: RunKey, h: Handle, p: Payload, key: Option<EventKey>)
    ensures HasShape(s, Append(s, k, h, p, key).0, Same)
  {
    hide AppendTo, Status.Terminal, Holds;
    if k in s.runs { AppendKeepsStatus(s.runs[k], h.fence, p, key); }
  }

  lemma StartShape(s: State, k: RunKey, q: StartRequest) returns (shape: Shape)
    ensures HasShape(s, Start(s, k, q).0, shape)
  {
    hide Denies, LiveScores, Move, Bump, Newest;
    var reply := Start(s, k, q).1;
    shape := if reply.Created? then Accepted(k)
             else if reply.TookOver? && s.runs[k].status == Running then Moved(k, Running, Queued)
             else Same;
  }

  lemma MoveShape(s: State, op: Op) returns (shape: Shape)
    requires op.DoAcquire? || op.DoTransition? || op.DoCancel? || op.DoPause? || op.DoResume?
    ensures HasShape(s, Apply(s, op), shape)
  {
    hide Denies, LiveScores, Move, Bump, Newest;
    var s' := Apply(s, op);
    if s' == s {
      shape := Same;
    } else {
      var to := if op.DoAcquire? then Running else if op.DoTransition? then op.target
                else if op.DoCancel? then Cancelled else if op.DoPause? then WaitingForInput else Queued;
      shape := Moved(op.k, s.runs[op.k].status, to);
    }
  }

  lemma StepShape(s: State, op: Op) returns (shape: Shape)
    ensures HasShape(s, Apply(s, op), shape)
  {
    hide HasShape;
    if op.DoStart? {
      shape := StartShape(s, op.k, op.start);
    } else if op.DoAcquire? || op.DoTransition? || op.DoCancel? || op.DoPause? || op.DoResume? {
      hide Apply;
      shape := MoveShape(s, op);
    } else if op.Expire? {
      shape := ExpireShape(s, op.k);
    } else if op.DoAppend? {
      AppendShape(s, op.k, op.h, op.payload, op.eventKey);
      shape := Same;
    } else {
      hide Apply;
      SameShape(s, op);
      shape := Same;
    }
  }

  lemma ExpireShape(s: State, k: RunKey) returns (shape: Shape)
    ensures HasShape(s, Apply(s, Expire(k)), shape)
  {
    shape := if k in s.runs && s.runs[k].status.Terminal() then Expired(k) else Same;
  }

  lemma BumpTotal(c: map<Status, int>, st: Status, delta: int)
    ensures Total(Bump(c, st, delta)) == Total(c) + delta
    ensures forall x :: Counter(Bump(c, st, delta), x) == Counter(c, x) + if x == st then delta else 0
  {
  }

  lemma MoveTotal(c: map<Status, int>, from: Status, to: Status)
    requires from != to
    ensures Total(Move(c, from, to)) == Total(c)
    ensures forall x :: Counter(Move(c, from, to), x)
                        == Counter(c, x) + (if x == to then 1 else if x == from then -1 else 0)
  {
    hide Total, Bump, Counter;
    BumpTotal(c, from, -1);
    BumpTotal(Bump(c, from, -1), to, 1);
  }

  lemma SetAfterUpdate(runs: map<RunKey, Run>, k: RunKey, r: Run, st: Status)
    ensures WithStatus(runs[k := r], st)
            == if r.status == st then WithStatus(runs, st) + {k} else WithStatus(runs, st) - {k}
    ensures k in WithStatus(runs, st) <==> k in runs && runs[k].status == st
  {
  }

  lemma Recount(s: State, s': State, shape: Shape, st: Status)
    requires HasShape(s, s', shape) && CounterOk(s.runs, s.counters, st)
    ensures CounterOk(s'.runs, s'.counters, st)
  {
    hide Bump, Move, Total, Counter, WithStatus;
    match shape
    case Same => SameSet(s, s', st);
    case Accepted(k) =>
      BumpTotal(s.counters, Queued, 1);
      SetAfterUpdate(s.runs, k, s'.runs[k], st);
    case Moved(k, from, to) =>
      MoveTotal(s.counters, from, to);
      SetAfterUpdate(s.runs, k, s'.runs[k], st);
    case Expired(k) => SetAfterExpiry(s, s', k, st);
  }

  lemma SameSet(s: State, s': State, st: Status)
    requires HasShape(s, s', Same)
    ensures WithStatus(s'.runs, st) == WithStatus(s.runs, st)
  {
  }

  lemma SetAfterExpiry(s: State, s': State, k: RunKey, st: Status)
    requires HasShape(s, s', Expired(k))
    ensures |WithStatus(s'.runs, st)| <= |WithStatus(s.runs, st)|
    ensures !st.Terminal() ==> WithStatus(s'.runs, st) == WithStatus(s.runs, st)
  {
    assert WithStatus(s'.runs, st) == WithStatus(s.runs, st) - {k};
  }

  lemma CountStep(s: State, op: Op)
    requires CountInv(s)
    ensures CountInv(Apply(s, op))
  {
    hide Apply, CounterOk, Total, Bump, Move;
    var s' := Apply(s, op);
    var shape := StepShape(s, op);
    forall st ensures CounterOk(s'.runs, s'.counters, st) { Recount(s, s', shape, st); }
    match shape
    case Accepted(_) => BumpTotal(s.counters, Queued, 1);
    case Moved(_, from, to) => MoveTotal(s.counters, from, to);
    case _ =>
  }

  lemma {:induction false} CountReachable(ops: seq<Op>)
    ensures CountInv(Execute(EMPTY, ops))
  {
    hide Apply;
    if ops == [] {
      forall st ensures CounterOk(EMPTY.runs, EMPTY.counters, st) {
        assert WithStatus(EMPTY.runs, st) == {};
      }
    } else {
      CountReachable(ops[..|ops| - 1]);
      CountStep(Execute(EMPTY, ops[..|ops| - 1]), ops[|ops| - 1]);
    }
  }

  /** Runs in `st` whose lease has not expired. */
  function LiveIn(s: State, st: Status): set<RunKey> {
    set k | k in s.runs && s.runs[k].status == st && s.runs[k].leaseUntil > s.now
  }

  /** The gauges of `metrics()` for one state: `running` counts exactly the running runs with a
      live lease, and `active - running` exactly the queued ones, so its clamp at zero never acts. */
  lemma GaugesAreExact(s: State)
    requires IndexInv(s)
    ensures LiveScores(s.running, s.now) == LiveIn(s, Running)
    ensures |LiveScores(s.active, s.now)| - |LiveScores(s.running, s.now)| == |LiveIn(s, Queued)|
  {
    hide RowOk, LiveIn, LiveScores;
    var active, running, queued := LiveScores(s.active, s.now), LiveIn(s, Running), LiveIn(s, Queued);
    forall k ensures k in LiveScores(s.running, s.now) <==> k in running
             ensures k in active <==> k in running || k in queued
             ensures !(k in running && k in queued)
    {
      assert RowOk(s, k);
      LiveRow(s, k);
    }
    assert active == queued + running && queued !! running;
    assert LiveScores(s.running, s.now) == running;
  }

  lemma LiveRow(s: State, k: RunKey)
    requires RowOk(s, k)
    ensures k in LiveScores(s.running, s.now) <==> k in LiveIn(s, Running)
    ensures k in LiveScores(s.active, s.now) <==> k in LiveIn(s, Running) || k in LiveIn(s, Queued)
    ensures !(k in LiveIn(s, Running) && k in LiveIn(s, Queued))
  {
  }

  // ----- the concurrency limit

  function LiveRunning(s: State): set<RunKey> {
    LiveScores(s.running, s.now)
  }

  /** All instances share the limit, and an owner renews its lease only before it expires. */
  predicate Disciplined(s: State, op: Op, limit: nat) {
    && (op.DoAcquire? ==> op.limit == limit)
    && (op.DoHeartbeat? && op.k in s.runs ==> s.runs[op.k].leaseUntil > s.now)
  }

  /** The live running set grows by an acquire that saw room, or by a late heartbeat. */
  lemma LiveGrowth(s: State, op: Op)
    requires IndexInv(s) && !op.DoAcquire?
    requires op.DoHeartbeat? && op.k in s.runs ==> s.runs[op.k].leaseUntil > s.now
    ensures LiveRunning(Apply(s, op)) <= LiveRunning(s)
  {
    hide TakeOver, NewRun, AppendTo, BeginRunning, Finish, CancelRun, PauseRun, ResumeRun,
         Denies, Move, Bump, Status.Terminal;
    if !op.Tick? { assert RowOk(s, op.k); }
  }

  lemma SubsetSize<T>(a: set<T>, b: set<T>)
    requires a <= b
    ensures |a| <= |b|
  {
    assert b == a + (b - a);
  }

  lemma CapacityStep(s: State, op: Op, limit: nat)
    requires IndexInv(s) && Disciplined(s, op, limit) && |LiveRunning(s)| <= limit
    ensures |LiveRunning(Apply(s, op))| <= limit
  {
    if op.DoAcquire? {
      SubsetSize(LiveRunning(Apply(s, op)), LiveRunning(s) + {op.k});
    } else {
      hide Apply;
      LiveGrowth(s, op);
      SubsetSize(LiveRunning(Apply(s, op)), LiveRunning(s));
    }
  }

  ghost predicate AllDisciplined(ops: seq<Op>, limit: nat) {
    forall n :: 0 <= n < |ops| ==> Disciplined(Execute(EMPTY, ops[..n]), ops[n], limit)
  }

  /** Never more than `max_concurrent` runs hold a live running lease. */
  lemma {:induction false} CapacityHolds(ops: seq<Op>, limit: nat)
    requires AllDisciplined(ops, limit)
    ensures |LiveRunning(Execute(EMPTY, ops))| <= limit
  {
    hide Apply, Disciplined;
    if ops == [] {
      assert LiveRunning(EMPTY) == {};
    } else {
      var shorter := ops[..|ops| - 1];
      forall n | 0 <= n < |shorter| ensures Disciplined(Execute(EMPTY, shorter[..n]), shorter[n], limit) {
        assert shorter[..n] == ops[..n];
      }
      CapacityHolds(shorter, limit);
      IndexReachable(shorter);
      CapacityStep(Execute(EMPTY, shorter), ops[|ops| - 1], limit);
    }
  }

  /** Exactly what the assumption on heartbeats buys: a successful heartbeat adds a live running
      run if and only if it revives the expired lease of a running run. */
  lemma LateHeartbeatAddsOne(s: State, k: RunKey, h: Handle, leaseMs: nat)
    requires IndexInv(s) && leaseMs > 0 && Heartbeat(s, k, h, leaseMs).1
    ensures |LiveRunning(Heartbeat(s, k, h, leaseMs).0)|
            == |LiveRunning(s)| + if s.runs[k].status == Running && s.runs[k].leaseUntil <= s.now then 1 else 0
  {
    assert RowOk(s, k);
    var after, before := LiveRunning(Heartbeat(s, k, h, leaseMs).0), LiveRunning(s);
    if s.runs[k].status == Running {
      assert after == before + {k};
      assert k in before <==> s.runs[k].leaseUntil > s.now;
      if k in before { assert after == before; } else { assert |before + {k}| == |before| + 1; }
    } else {
      assert after == before;
    }
  }

  /** Exactly which step exceeds the limit: a heartbeat that revives a running run's expired lease
      while the limit is used up. */
  lemma LimitExceededIff(s: State, op: Op, limit: nat)
    requires IndexInv(s) && |LiveRunning(s)| <= limit && (op.DoAcquire? ==> op.limit == limit)
    ensures |LiveRunning(Apply(s, op))| > limit
            <==> op.DoHeartbeat? && op.k in s.runs && Revives(s, op.k, op.h, op.leaseMs) && |LiveRunning(s)| == limit
  {
    if Disciplined(s, op, limit) {
      hide Apply;
      CapacityStep(s, op, limit);
    } else if Heartbeat(s, op.k, op.h, op.leaseMs).1 {
      if op.leaseMs > 0 {
        LateHeartbeatAddsOne(s, op.k, op.h, op.leaseMs);
      } else {
        SubsetSize(LiveRunning(Apply(s, op)), LiveRunning(s));
      }
    }
  }

  predicate Revives(s: State, k: RunKey, h: Handle, leaseMs: nat)
    requires k in s.runs
  {
    Holds(s.runs[k], h) && s.runs[k].status == Running && s.runs[k].leaseUntil <= s.now && leaseMs > 0
  }

  lemma ExecuteMore(ops: seq<Op>, op: Op)
    ensures Execute(EMPTY, ops + [op]) == Apply(Execute(EMPTY, ops), op)
  {
    hide Apply;
    assert (ops + [op])[..|ops|] == ops;
  }

  const REQUEST: StartRequest := StartRequest(0, Stream, None, 8, 5, 10, 9)
  const OWNER: Handle := Handle(5, 1)

  lemma TakesTheSlot(s: State, k: RunKey)
    requires k !in s.runs && LiveScores(s.active, s.now) == {} && LiveScores(s.running, s.now) == {}
    ensures var s' := Apply(Apply(s, DoStart(k, REQUEST)), DoAcquire(k, OWNER, 1, 10));
            && s'.now == s.now && s'.runs == s.runs[k := BeginRunning(NewRun(REQUEST, s.now + 10), s.now + 10)]
            && s'.active == s.active[k := s.now + 10] && s'.running == s.running[k := s.now + 10]
  {
    hide Move, Bump;
  }

  /** Without that assumption the limit fails: run 0 lets its lease expire, run 1 takes the only
      slot, and then the owner of run 0 renews. */
  lemma LimitCanBeExceeded() returns (ops: seq<Op>)
    ensures forall i :: 0 <= i < |ops| && ops[i].DoAcquire? ==> ops[i].limit == 1
    ensures LiveRunning(Execute(EMPTY, ops)) == {0, 1}
  {
    hide Start, Acquire, BeginRunning, NewRun;
    var s0 := Execute(EMPTY, []);
    TakesTheSlot(s0, 0);
    ExecuteMore([], DoStart(0, REQUEST));
    assert [] + [DoStart(0, REQUEST)] == [DoStart(0, REQUEST)];
    ops := [DoStart(0, REQUEST)];
    ExecuteMore(ops, DoAcquire(0, OWNER, 1, 10));
    ops := ops + [DoAcquire(0, OWNER, 1, 10)];
    ExecuteMore(ops, Tick(10));
    ops := ops + [Tick(10)];
    var late := Execute(EMPTY, ops);
    assert late.active == map[0 := 10] && late.running == map[0 := 10] && late.now == 10;
    TakesTheSlot(late, 1);
    ExecuteMore(ops, DoStart(1, REQUEST));
    ops := ops + [DoStart(1, REQUEST)];
    ExecuteMore(ops, DoAcquire(1, OWNER, 1, 10));
    ops := ops + [DoAcquire(1, OWNER, 1, 10)];
    var full := Execute(EMPTY, ops);
    assert full.runs[0] == late.runs[0] == BeginRunning(NewRun(REQUEST, 10), 10);
    ExecuteMore(ops, DoHeartbeat(0, OWNER, 10));
    ops := ops + [DoHeartbeat(0, OWNER, 10)];
    RenewsLate(full);
  }

  lemma RenewsLate(s: State)
    requires s.now == 10 && s.running == map[0 := 10, 1 := 20]
    requires 0 in s.runs && s.runs[0] == BeginRunning(NewRun(REQUEST, 10), 10)
    ensures LiveRunning(Apply(s, DoHeartbeat(0, OWNER, 10))) == {0, 1}
  {
    assert Apply(s, DoHeartbeat(0, OWNER, 10)).running == map[0 := 20, 1 := 20];
  }
}
