/** While no lease expires, the Redis registry is indistinguishable from the in-memory one. */
module Simulation {
  import opened RunTypes
  import R = RedisScripts
  import opened IndexInvariants
  import M = MemoryRegistry

  /** The retained events with their ids. */
  function Rows(entries: seq<Entry>): seq<(nat, Payload)> {
    seq(|entries|, i requires 0 <= i < |entries| => (entries[i].id, entries[i].event.payload))
  }

  /** The in-memory registry does not record the keys of pauses. */
  function Keys(dedupe: map<EventKey, nat>): map<EventKey, nat> {
    map x | x in dedupe && !x.InteractionKey? :: dedupe[x]
  }

  function AbsRun(r: Run): M.Record {
    M.Record(r.fingerprint, r.kind, r.user, r.bufferSize, r.status, r.interaction, r.responses, 1 + |r.responses|,
             r.outcome.errorCode, r.outcome.error, r.streamFailed,
             Rows(r.entries), r.lastEventId + 1, Keys(r.dedupe))
  }

  /** The in-memory records a Redis state stands for. */
  function Abs(s: R.State): M.Records {
    map k | k in s.runs :: AbsRun(s.runs[k])
  }

  predicate NoLeaseExpired(s: R.State) {
    forall k :: k in s.active ==> s.active[k] > s.now
  }

  function StartDecision(reply: R.StartReply): M.Decision {
    match reply
    case Conflict => M.RunConflict
    case Denied => M.RunAccess
    case Overloaded => M.RunOverloaded
    case Attached(_) => M.Existing
    case _ => M.Accepted
  }

  function PauseDecision(reply: R.PauseReply): M.Decision {
    match reply
    case PauseMissing => M.RunNotFound
    case PauseFenced => M.RunConflict
    case NotRunning => M.InvalidTransition
    case OtherInteraction => M.InteractionConflict
    case AlreadyPaused(_) => M.Existing
    case PausedAt(_) => M.Accepted
  }

  function AppendDecision(reply: R.AppendReply): (M.Decision, nat) {
    match reply
    case NoRun => (M.RunNotFound, 0)
    case Fenced => (M.RunConflict, 0)
    case AlreadyTerminal => (M.RunConflict, 0)
    case NotWhileWaiting => (M.InvalidTransition, 0)
    case Duplicate(id) => (M.Existing, id)
    case Appended(id) => (M.Accepted, id)
  }

  function ResumeDecision(reply: R.ResumeReply): M.Decision {
    match reply
    case ResumeMissing => M.RunNotFound
    case ResumeDenied => M.RunAccess
    case NotWaiting => M.InvalidTransition
    case WrongInteraction => M.InteractionConflict
    case ResponseReused => M.InteractionConflict
    case Replayed(_) => M.Existing
    case Resumed(_) => M.Accepted
  }

  lemma AbsUpdate(s: R.State, s': R.State, k: RunKey, r: Run)
    requires s'.runs == s.runs[k := r]
    ensures Abs(s') == Abs(s)[k := AbsRun(r)]
  {
  }

  lemma AbsAt(s: R.State, k: RunKey)
    ensures k in Abs(s) <==> k in s.runs
    ensures k in s.runs ==> Abs(s)[k] == AbsRun(s.runs[k])
  {
  }

  lemma AbsSame(s: R.State, s': R.State, k: RunKey)
    requires s'.runs == s.runs
             || (k in s.runs && k in s'.runs && s'.runs == s.runs[k := s'.runs[k]]
                 && AbsRun(s'.runs[k]) == AbsRun(s.runs[k]))
    ensures Abs(s') == Abs(s)
  {
  }

  /** The admission count: live scores are the pending records. */
  lemma SameLoad(s: R.State)
    requires IndexInv(s) && NoLeaseExpired(s)
    ensures R.LiveScores(s.active, s.now) == M.PendingKeys(Abs(s))
  {
    hide RowOk;
    forall k ensures k in R.LiveScores(s.active, s.now) <==> k in M.PendingKeys(Abs(s)) {
      assert RowOk(s, k);
      PendingRow(s, k);
    }
  }

  lemma PendingRow(s: R.State, k: RunKey)
    requires RowOk(s, k) && (k in s.active ==> s.active[k] > s.now)
    ensures k in R.LiveScores(s.active, s.now) <==> k in M.PendingKeys(Abs(s))
  {
  }

  // ----- what the scripts write, seen as records

  lemma RowsMore(entries: seq<Entry>, e: Entry, n: nat)
    ensures Rows(Newest(entries + [e], n)) == Newest(Rows(entries) + [(e.id, e.event.payload)], n)
  {
    assert Rows(entries + [e]) == Rows(entries) + [(e.id, e.event.payload)];
  }

  /** Trimming after each of two events or once after both. */
  lemma TrimOnce<T>(s: seq<T>, a: T, b: T, n: nat)
    ensures Newest(Newest(s + [a], n) + [b], n) == Newest(s + [a] + [b], n)
  {
  }

  lemma KeysMore(dedupe: map<EventKey, nat>, key: EventKey, id: nat)
    ensures Keys(dedupe[key := id]) == if key.InteractionKey? then Keys(dedupe) else Keys(dedupe)[key := id]
  {
  }

  lemma NewRunAbs(q: R.StartRequest, lease: nat)
    ensures AbsRun(R.NewRun(q, lease)) == M.NewRecord(q)
  {
  }

  lemma AppendAbs(r: Run, fence: nat, p: Payload, key: Option<EventKey>)
    requires key.Some? ==> !key.value.InteractionKey?
    ensures AbsRun(R.AppendTo(r, fence, p, key)) == M.LoggedUnder(AbsRun(r), p, key)
  {
    hide Newest, Rows, Keys;
    RowsMore(r.entries, Entry(r.lastEventId + 1, Event(p, Some(fence))), r.bufferSize);
    if key.Some? { KeysMore(r.dedupe, key.value, r.lastEventId + 1); }
  }

  lemma PauseAbs(r: Run, i: Interaction, p: Payload)
    ensures AbsRun(R.PauseRun(r, i, p)) == M.PausedRecord(AbsRun(r), i, p)
  {
    hide Newest, Rows, Keys;
    RowsMore(r.entries, Entry(r.lastEventId + 1, Event(p, None)), r.bufferSize);
    KeysMore(r.dedupe, InteractionKey(i), r.lastEventId + 1);
  }

  lemma ResumeAbs(r: Run, i: Interaction, response: Token, instance: Instance, lease: nat)
    requires response !in r.responses
    ensures AbsRun(R.ResumeRun(r, i, response, instance, lease)) == M.ResumedRecord(AbsRun(r), i, response)
  {
    hide Rows, Keys;
    assert r.responses[response := i].Keys == r.responses.Keys + {response};
  }

  /** The in-memory counterpart of a cancellation: error and marker are logged one by one. */
  lemma CancelAbs(r: Run, q: R.CancelRequest)
    ensures AbsRun(R.CancelRun(r, q.error, q.errorEvent, q.doneEvent))
            == Ended(AbsRun(r), Cancelled, q.error, CancelLog(r, q))
  {
    hide Newest, Rows, Keys, LoggedAll, M.Logged;
    var ended := AbsRun(r).(status := Cancelled, errorCode := q.error.errorCode, error := q.error.error);
    if r.kind == Stream {
      LoggedTwice(ended, q.errorEvent, q.doneEvent);
      CancelLogged(r, q);
    } else {
      LoggedNone(ended);
    }
  }

  lemma LoggedNone(r: M.Record)
    ensures LoggedAll(r, []) == r
  {
  }

  lemma CancelLogged(r: Run, q: R.CancelRequest)
    requires r.kind == Stream
    ensures var ended := AbsRun(r).(status := Cancelled, errorCode := q.error.errorCode, error := q.error.error);
            AbsRun(R.CancelRun(r, q.error, q.errorEvent, q.doneEvent))
            == M.Logged(M.Logged(ended, q.errorEvent), q.doneEvent)
  {
    hide Newest, Rows, Keys;
    var n, fence := r.lastEventId, Some(r.fence + 1);
    var a, b := Entry(n + 1, Event(q.errorEvent, fence)), Entry(n + 2, Event(q.doneEvent, fence));
    RowsMore(r.entries, a, r.bufferSize);
    RowsMore(Newest(r.entries + [a], r.bufferSize), b, r.bufferSize);
    TrimOnce(r.entries, a, b, r.bufferSize);
  }

  lemma LoggedTwice(r: M.Record, a: Payload, b: Payload)
    ensures LoggedAll(r, [a, b]) == M.Logged(M.Logged(r, a), b)
  {
    hide M.Logged;
    assert [a, b][1..] == [b];
    assert LoggedAll(M.Logged(r, a), [b]) == LoggedAll(M.Logged(M.Logged(r, a), b), []);
  }

  // ----- the calls

  lemma StartAgrees(s: R.State, k: RunKey, q: R.StartRequest)
    requires IndexInv(s) && NoLeaseExpired(s)
    ensures var (s', reply) := R.Start(s, k, q);
            M.Start(Abs(s), k, q) == (Abs(s'), StartDecision(reply))
  {
    hide R.TakeOver, R.LiveScores, M.PendingKeys, R.Move, R.Bump, R.NewRun, M.NewRecord, Rows, Keys;
    var (s', reply) := R.Start(s, k, q);
    assert RowOk(s, k);
    SameLoad(s);
    if reply.Created? {
      NewRunAbs(q, s.now + q.leaseMs);
      AbsUpdate(s, s', k, R.NewRun(q, s.now + q.leaseMs));
    }
  }

  /** `pause_for_input`: the size is checked before the script runs. */
  function PauseCall(s: R.State, k: RunKey, h: Handle, i: Interaction, p: Payload, tooLarge: bool)
    : (R.State, M.Decision)
  {
    if tooLarge then (s, M.InvalidTransition)
    else var (s', reply) := R.Pause(s, k, h, i, p); (s', PauseDecision(reply))
  }

  lemma PauseAgrees(s: R.State, k: RunKey, h: Handle, i: Interaction, p: Payload, tooLarge: bool)
    requires k in s.runs ==> R.Holds(s.runs[k], h)
    ensures var (s', d) := PauseCall(s, k, h, i, p, tooLarge);
            M.Pause(Abs(s), k, i, p, tooLarge) == (Abs(s'), d)
  {
    hide Abs, R.Move, R.PauseRun, M.PausedRecord, Rows, Keys;
    AbsAt(s, k);
    var (s', reply) := R.Pause(s, k, h, i, p);
    if reply.PausedAt? {
      PauseAbs(s.runs[k], i, p);
      AbsUpdate(s, s', k, R.PauseRun(s.runs[k], i, p));
    }
  }

  lemma ResumeAgrees(s: R.State, k: RunKey, q: R.ResumeRequest)
    ensures var (s', reply) := R.Resume(s, k, q);
            M.Resume(Abs(s), k, q) == (Abs(s'), ResumeDecision(reply))
  {
    hide Abs, R.Move, R.ResumeRun, M.ResumedRecord, Rows, Keys;
    AbsAt(s, k);
    var (s', reply) := R.Resume(s, k, q);
    if reply.Resumed? {
      ResumeAbs(s.runs[k], q.interaction, q.response, q.instance, s.now + q.leaseMs);
      AbsUpdate(s, s', k, R.ResumeRun(s.runs[k], q.interaction, q.response, q.instance, s.now + q.leaseMs));
    }
  }

  /** An append by the current executor of a run that has not ended. */
  lemma AppendAgrees(s: R.State, k: RunKey, h: Handle, p: Payload, key: Option<EventKey>)
    requires k in s.runs && R.Holds(s.runs[k], h) && !s.runs[k].status.Terminal()
    requires key.Some? ==> !key.value.InteractionKey?
    ensures var (s', reply) := R.Append(s, k, h, p, key);
            var (record, d, id) := M.Append(Abs(s)[k], p, key, None);
            Abs(s') == Abs(s)[k := record] && AppendDecision(reply) == (d, id)
  {
    hide Abs, R.AppendTo, M.LoggedUnder, Rows;
    AbsAt(s, k);
    var (s', reply) := R.Append(s, k, h, p, key);
    if reply.Appended? {
      AppendAbs(s.runs[k], h.fence, p, key);
      AbsUpdate(s, s', k, R.AppendTo(s.runs[k], h.fence, p, key));
    } else {
      assert Abs(s)[k := Abs(s)[k]] == Abs(s);
    }
  }

  /** Exactly where a repeated start parts from the in-memory one: the run is pending, the
      caller may use it, and its lease has expired, so Redis hands the execution over. */
  lemma RepeatedStartAgreesIff(s: R.State, k: RunKey, q: R.StartRequest)
    requires k in s.runs
    ensures M.Start(Abs(s), k, q).1 == StartDecision(R.Start(s, k, q).1)
            <==> !(&& !R.Denies(s.runs[k], q.user)
                   && s.runs[k].fingerprint == q.fingerprint && s.runs[k].kind == q.kind
                   && s.runs[k].status.Pending() && s.runs[k].leaseUntil <= s.now)
  {
    hide R.TakeOver, R.Move, Rows, Keys;
  }

  /** Exactly where a first start parts from it: runs with expired leases are not counted, and
      without them there is room, with them there is not. */
  lemma FirstStartAgreesIff(s: R.State, k: RunKey, q: R.StartRequest)
    requires IndexInv(s) && k !in s.runs
    ensures R.LiveScores(s.active, s.now) <= M.PendingKeys(Abs(s))
    ensures M.Start(Abs(s), k, q).1 == StartDecision(R.Start(s, k, q).1)
            <==> !(|R.LiveScores(s.active, s.now)| < q.limit <= |M.PendingKeys(Abs(s))|)
  {
    hide AbsRun, RowOk;
    forall x | x in R.LiveScores(s.active, s.now) ensures x in M.PendingKeys(Abs(s)) {
      assert RowOk(s, x);
      PendingWhenActive(s, x);
    }
    SubsetSize(R.LiveScores(s.active, s.now), M.PendingKeys(Abs(s)));
  }

  lemma PendingWhenActive(s: R.State, k: RunKey)
    requires RowOk(s, k) && k in s.active
    ensures k in M.PendingKeys(Abs(s))
  {
  }

  // ----- whole runs

  /** The end of a run: status and error, and what is logged with it. */
  function Ended(r: M.Record, st: Status, o: Outcome, log: seq<Payload>): M.Record {
    LoggedAll(r.(status := st, errorCode := o.errorCode, error := o.error), log)
  }

  function LoggedAll(r: M.Record, log: seq<Payload>): M.Record
    decreases |log|
  {
    if log == [] then r else LoggedAll(M.Logged(r, log[0]), log[1..])
  }

  function CancelLog(r: Run, q: R.CancelRequest): seq<Payload> {
    if r.kind == Stream then [q.errorEvent, q.doneEvent] else []
  }

  /** What the in-memory registry does while Redis executes a script: the same call, what the
      executor itself does to its record, or nothing. */
  datatype Echo =
    | Silent
    | EchoStart(k: RunKey, q: R.StartRequest)
    | EchoPause(k: RunKey, i: Interaction, p: Payload)
    | EchoResume(k: RunKey, r: R.ResumeRequest)
    | EchoAppend(k: RunKey, p: Payload, key: Option<EventKey>)
    | EchoMark(k: RunKey, code: Token, message: Token)
    | EchoRun(k: RunKey)
    | EchoEnd(k: RunKey, status: Status, o: Outcome, log: seq<Payload>)
    | EchoForget(k: RunKey)

  function Replay(m: M.Records, e: Echo): M.Records {
    match e
    case Silent => m
    case EchoStart(k, q) => M.Start(m, k, q).0
    case EchoPause(k, i, p) => M.Pause(m, k, i, p, false).0
    case EchoResume(k, q) => M.Resume(m, k, q).0
    case EchoAppend(k, p, key) => if k in m then m[k := M.Append(m[k], p, key, None).0] else m
    case EchoMark(k, code, message) => if k in m then m[k := M.Failing(m[k], code, message)] else m
    case EchoRun(k) => if k in m && m[k].status == Queued then m[k := m[k].(status := Running)] else m
    case EchoEnd(k, st, o, log) =>
      if k in m && !m[k].status.Terminal() && st.Terminal() then m[k := Ended(m[k], st, o, log)] else m
    case EchoForget(k) => if k in m && m[k].status.Terminal() then m - {k} else m
  }

  function EchoOf(s: R.State, op: R.Op): Echo {
    match op
    case DoStart(k, q) => EchoStart(k, q)
    case DoPause(k, h, i, p) => if k in s.runs && !R.Holds(s.runs[k], h) then Silent else EchoPause(k, i, p)
    case DoResume(k, q) => EchoResume(k, q)
    case DoAppend(k, h, p, key) =>
      if k in s.runs && R.Holds(s.runs[k], h) && !s.runs[k].status.Terminal() then EchoAppend(k, p, key) else Silent
    case DoMarkFailed(k, h, code, message, http) =>
      if R.MarkStreamFailed(s, k, h, code, message, http).1.Written? then EchoMark(k, code, message) else Silent
    case DoAcquire(k, h, limit, ms) =>
      if R.Acquire(s, k, h, limit, ms).1.Acquired? then EchoRun(k) else Silent
    case DoTransition(k, h, target, o) =>
      if R.Transition(s, k, h, target, o).1.Committed? then EchoEnd(k, target, o, []) else Silent
    case DoCancel(k, q) =>
      if R.Cancel(s, k, q).1.Cancelling? then EchoEnd(k, Cancelled, q.error, CancelLog(s.runs[k], q)) else Silent
    case Expire(k) => EchoForget(k)
    case _ => Silent
  }

  lemma AcquireAgrees(s: R.State, k: RunKey, h: Handle, limit: nat, ms: nat)
    ensures Abs(R.Acquire(s, k, h, limit, ms).0) == Replay(Abs(s), EchoOf(s, R.DoAcquire(k, h, limit, ms)))
  {
    hide Abs, R.Move, R.LiveScores, Rows, Keys, R.BeginRunning;
    AbsAt(s, k);
    var (s', reply) := R.Acquire(s, k, h, limit, ms);
    if reply.Acquired? { BeginAbs(s.runs[k], s.now + ms); AbsUpdate(s, s', k, R.BeginRunning(s.runs[k], s.now + ms)); }
  }

  lemma BeginAbs(r: Run, lease: nat)
    ensures AbsRun(R.BeginRunning(r, lease)) == AbsRun(r).(status := Running)
  {
    hide Rows, Keys;
  }

  lemma TransitionAgrees(s: R.State, k: RunKey, h: Handle, target: Status, o: Outcome)
    ensures Abs(R.Transition(s, k, h, target, o).0) == Replay(Abs(s), EchoOf(s, R.DoTransition(k, h, target, o)))
  {
    hide Abs, R.Move, Rows, Keys, R.Finish, Ended;
    AbsAt(s, k);
    var (s', reply) := R.Transition(s, k, h, target, o);
    if reply.Committed? {
      FinishAbs(s.runs[k], target, o);
      AbsUpdate(s, s', k, R.Finish(s.runs[k], target, o));
    }
  }

  lemma FinishAbs(r: Run, target: Status, o: Outcome)
    ensures AbsRun(R.Finish(r, target, o)) == Ended(AbsRun(r), target, o, [])
  {
    hide Rows, Keys;
  }

  lemma CancelAgrees(s: R.State, k: RunKey, q: R.CancelRequest)
    ensures Abs(R.Cancel(s, k, q).0) == Replay(Abs(s), EchoOf(s, R.DoCancel(k, q)))
  {
    hide Abs, R.Move, R.CancelRun, R.Denies, Rows, Keys, Ended, CancelLog;
    AbsAt(s, k);
    var (s', reply) := R.Cancel(s, k, q);
    if reply.Cancelling? {
      CancelAbs(s.runs[k], q);
      AbsUpdate(s, s', k, R.CancelRun(s.runs[k], q.error, q.errorEvent, q.doneEvent));
    }
  }

  lemma MarkAgrees(s: R.State, op: R.Op)
    requires op.DoMarkFailed?
    ensures Abs(R.Apply(s, op)) == Replay(Abs(s), EchoOf(s, op))
  {
    hide Abs, Rows, Keys, R.Holds, Status.Terminal,
         R.Start, R.Append, R.Acquire, R.Transition, R.Cancel, R.Pause, R.Resume;
    AbsAt(s, op.k);
    var s' := R.Apply(s, op);
    if op.k in s'.runs { AbsUpdate(s, s', op.k, s'.runs[op.k]); }
  }

  lemma SilentAgrees(s: R.State, op: R.Op)
    requires op.Tick? || op.DoHeartbeat? || op.DoRelease? || op.DoSetRunId?
    ensures Abs(R.Apply(s, op)) == Abs(s)
  {
    hide R.Holds, Abs, Status.Pending, Status.Terminal, Rows, Keys;
    AbsSame(s, R.Apply(s, op), if op.Tick? then 0 else op.k);
  }

  /** The dedupe keys of pauses are written by pauses alone. */
  predicate PlainKey(op: R.Op) {
    op.DoAppend? && op.eventKey.Some? ==> !op.eventKey.value.InteractionKey?
  }

  lemma AppendEchoes(s: R.State, k: RunKey, h: Handle, p: Payload, key: Option<EventKey>)
    requires key.Some? ==> !key.value.InteractionKey?
    ensures Abs(R.Append(s, k, h, p, key).0) == Replay(Abs(s), EchoOf(s, R.DoAppend(k, h, p, key)))
  {
    hide R.AppendTo, M.Append, AbsRun;
    if k in s.runs && R.Holds(s.runs[k], h) && !s.runs[k].status.Terminal() { AppendAgrees(s, k, h, p, key); }
  }

  lemma AbsWithout(s: R.State, k: RunKey)
    ensures Abs(s.(runs := s.runs - {k})) == Abs(s) - {k}
  {
    hide AbsRun;
  }

  lemma ForgetAgrees(s: R.State, k: RunKey)
    ensures Abs(R.Apply(s, R.Expire(k))) == Replay(Abs(s), EchoForget(k))
  {
    hide Abs, Rows, Keys;
    AbsWithout(s, k);
    AbsAt(s, k);
  }

  lemma StepAgrees(s: R.State, op: R.Op)
    requires IndexInv(s) && NoLeaseExpired(s) && PlainKey(op)
    ensures Abs(R.Apply(s, op)) == Replay(Abs(s), EchoOf(s, op))
  {
    hide R.Start, R.Append, R.Acquire, R.Transition, R.Cancel, R.Pause, R.Resume, M.Start, M.Pause, M.Resume, M.Append,
         AbsRun, Ended;
    match op
    case DoStart(k, q) => StartAgrees(s, k, q);
    case DoPause(k, h, i, p) =>
      if k in s.runs && !R.Holds(s.runs[k], h) {
        FencedPause(s, k, h, i, p);
      } else {
        PauseAgrees(s, k, h, i, p, false);
      }
    case DoResume(k, q) => ResumeAgrees(s, k, q);
    case DoAcquire(k, h, limit, ms) => AcquireAgrees(s, k, h, limit, ms);
    case DoTransition(k, h, target, o) => TransitionAgrees(s, k, h, target, o);
    case DoCancel(k, q) => CancelAgrees(s, k, q);
    case DoAppend(k, h, p, key) => AppendEchoes(s, k, h, p, key);
    case DoMarkFailed(_, _, _, _, _) => MarkAgrees(s, op);
    case Expire(k) => ForgetAgrees(s, k);
    case _ => SilentAgrees(s, op);
  }

  lemma FencedPause(s: R.State, k: RunKey, h: Handle, i: Interaction, p: Payload)
    requires k in s.runs && !R.Holds(s.runs[k], h)
    ensures R.Pause(s, k, h, i, p).0 == s
  {
  }

  /** The in-memory registry replaying the whole interleaving. */
  function ReplayAll(ops: seq<R.Op>): M.Records {
    if ops == [] then map[]
    else Replay(ReplayAll(ops[..|ops| - 1]), EchoOf(R.Execute(R.EMPTY, ops[..|ops| - 1]), ops[|ops| - 1]))
  }

  ghost predicate LeasesHold(ops: seq<R.Op>) {
    forall n :: 0 <= n <= |ops| ==> NoLeaseExpired(R.Execute(R.EMPTY, ops[..n]))
  }

  /** Every state reached while no lease expires stands for exactly the records of an in-memory
      registry that was given the same calls. */
  lemma {:induction false} Simulates(ops: seq<R.Op>)
    requires LeasesHold(ops) && forall n :: 0 <= n < |ops| ==> PlainKey(ops[n])
    ensures Abs(R.Execute(R.EMPTY, ops)) == ReplayAll(ops)
  {
    hide R.Apply, NoLeaseExpired, Replay, EchoOf, IndexInv, PlainKey;
    if ops == [] {
    } else {
      var shorter := ops[..|ops| - 1];
      forall n | 0 <= n <= |shorter| ensures NoLeaseExpired(R.Execute(R.EMPTY, shorter[..n])) {
        assert shorter[..n] == ops[..n];
      }
      assert shorter[..|shorter|] == shorter;
      Simulates(shorter);
      IndexReachable(shorter);
      StepAgrees(R.Execute(R.EMPTY, shorter), ops[|ops| - 1]);
    }
  }

  /** Same accept, replay, conflict, access, overload and state decisions at every point of such
      a run. */
  lemma SameDecisions(ops: seq<R.Op>, k: RunKey, q: R.StartRequest, a: R.ResumeRequest,
                      h: Handle, i: Interaction, p: Payload, tooLarge: bool)
    requires LeasesHold(ops) && forall n :: 0 <= n < |ops| ==> PlainKey(ops[n])
    ensures var s := R.Execute(R.EMPTY, ops);
            && M.Start(ReplayAll(ops), k, q).1 == StartDecision(R.Start(s, k, q).1)
            && M.Resume(ReplayAll(ops), k, a).1 == ResumeDecision(R.Resume(s, k, a).1)
            && ((k in s.runs ==> R.Holds(s.runs[k], h)) ==>
                  M.Pause(ReplayAll(ops), k, i, p, tooLarge).1 == PauseCall(s, k, h, i, p, tooLarge).1)
  {
    hide R.Start, PauseCall, R.Resume, M.Start, M.Pause, M.Resume, R.Apply, IndexInv, NoLeaseExpired,
         StartDecision, ResumeDecision, PlainKey;
    var s := R.Execute(R.EMPTY, ops);
    assert ops[..|ops|] == ops;
    assert NoLeaseExpired(R.Execute(R.EMPTY, ops[..|ops|]));
    Simulates(ops);
    IndexReachable(ops);
    StartAgrees(s, k, q);
    ResumeAgrees(s, k, a);
    if k in s.runs ==> R.Holds(s.runs[k], h) { PauseAgrees(s, k, h, i, p, tooLarge); }
  }

  /** Same log: the in-memory deque holds the retained events under the same ids, and an append by
      the current executor is answered alike, with the same id. */
  lemma SameLog(ops: seq<R.Op>, k: RunKey, h: Handle, p: Payload, key: Option<EventKey>)
    requires LeasesHold(ops) && forall n :: 0 <= n < |ops| ==> PlainKey(ops[n])
    requires k in R.Execute(R.EMPTY, ops).runs && (key.Some? ==> !key.value.InteractionKey?)
    ensures var s, m := R.Execute(R.EMPTY, ops), ReplayAll(ops);
            && k in m && m[k].events == Rows(s.runs[k].entries) && m[k].nextEventId == s.runs[k].lastEventId + 1
            && (R.Holds(s.runs[k], h) && !s.runs[k].status.Terminal() ==>
                  var (_, d, id) := M.Append(m[k], p, key, None);
                  AppendDecision(R.Append(s, k, h, p, key).1) == (d, id))
  {
    hide R.Apply, R.Append, M.Append, Rows, Keys, Abs, PlainKey, LeasesHold, AppendDecision;
    var s := R.Execute(R.EMPTY, ops);
    Simulates(ops);
    AbsAt(s, k);
    if R.Holds(s.runs[k], h) && !s.runs[k].status.Terminal() { AppendAgrees(s, k, h, p, key); }
  }

  /** There are such runs: one is started, gets its slot and works for a while. */
  lemma LeasesCanHold() returns (ops: seq<R.Op>)
    ensures LeasesHold(ops) && (forall n :: 0 <= n < |ops| ==> PlainKey(ops[n]))
    ensures var s := R.Execute(R.EMPTY, ops);
            0 in s.runs && s.runs[0].status == Running && s.now == 5
  {
    hide R.Apply, R.NewRun, R.BeginRunning;
    var a, b, c := R.DoStart(0, REQUEST), R.DoAcquire(0, OWNER, 1, 10), R.Tick(5);
    ops := [a, b, c];
    assert ops[..0] == [] && ops[..1] == [] + [a] && ops[..2] == ops[..1] + [b] && ops[..3] == ops[..2] + [c];
    assert ops[..3] == ops;
    ExecuteMore([], a);
    ExecuteMore(ops[..1], b);
    ExecuteMore(ops[..2], c);
    assert R.Execute(R.EMPTY, []) == R.EMPTY;
    var s1 := R.Apply(R.EMPTY, a);
    var s2 := R.Apply(s1, b);
    StartsAlone();
    TakesTheSlot(R.EMPTY, 0);
    TicksOnce(s2);
    forall n | 0 <= n <= |ops| ensures NoLeaseExpired(R.Execute(R.EMPTY, ops[..n])) {
      if n == 0 {
      } else if n == 1 {
      } else if n == 2 {
      } else {
        assert ops[..n] == ops[..3];
      }
    }
    RunningNow(s2);
  }

  lemma StartsAlone()
    ensures NoLeaseExpired(R.EMPTY)
    ensures R.LiveScores(R.EMPTY.active, R.EMPTY.now) == {} && R.LiveScores(R.EMPTY.running, R.EMPTY.now) == {}
    ensures NoLeaseExpired(R.Apply(R.EMPTY, R.DoStart(0, REQUEST)))
  {
    assert R.LiveScores(R.EMPTY.active, 0) == {};
  }

  lemma TicksOnce(s: R.State)
    requires s.now == 0 && s.active == map[0 := 10]
    ensures var s' := R.Apply(s, R.Tick(5)); s'.runs == s.runs && s'.now == 5 && NoLeaseExpired(s') && NoLeaseExpired(s)
  {
  }

  lemma RunningNow(s: R.State)
    requires s.runs == map[0 := R.BeginRunning(R.NewRun(REQUEST, 10), 10)]
    ensures 0 in s.runs && s.runs[0].status == Running
  {
  }

  // ----- the in-memory registry's own invariant

  ghost predicate RecordsInv(m: M.Records) {
    forall k :: k in m ==> M.RecordInv(m[k])
  }

  lemma {:induction false} LoggedAllKeeps(r: M.Record, log: seq<Payload>)
    requires M.RecordInv(r)
    ensures M.RecordInv(LoggedAll(r, log))
    decreases |log|
  {
    hide M.RecordInv, M.Logged;
    if log == [] {
    } else {
      M.LoggedKeeps(r, log[0]);
      LoggedAllKeeps(M.Logged(r, log[0]), log[1..]);
    }
  }

  lemma EndedKeeps(r: M.Record, st: Status, o: Outcome, log: seq<Payload>)
    requires M.RecordInv(r)
    ensures M.RecordInv(Ended(r, st, o, log))
  {
    hide LoggedAll;
    LoggedAllKeeps(r.(status := st, errorCode := o.errorCode, error := o.error), log);
  }

  lemma StatusKeeps(r: M.Record, st: Status, code: Token, message: Token)
    requires M.RecordInv(r)
    ensures M.RecordInv(r.(status := st)) && M.RecordInv(M.Failing(r, code, message))
  {
  }

  lemma ReplayKeeps(m: M.Records, e: Echo)
    requires RecordsInv(m)
    ensures RecordsInv(Replay(m, e))
  {
    hide M.RecordInv, M.NewRecord, M.PausedRecord, M.ResumedRecord, M.Append, M.Failing, Ended, M.Refuses,
         M.PendingKeys;
    if e.EchoStart? {
      M.NewRecordOk(e.q);
    } else if !e.Silent? && e.k in m {
      var r := m[e.k];
      match e
      case EchoPause(_, i, p) => M.PauseKeeps(r, i, p);
      case EchoResume(_, q) => if q.response !in r.responses { M.ResumeKeeps(r, q.interaction, q.response); }
      case EchoAppend(_, p, key) => M.AppendKeeps(r, p, key, None);
      case EchoMark(_, code, message) => StatusKeeps(r, r.status, code, message);
      case EchoRun(_) => StatusKeeps(r, Running, 0, 0);
      case EchoEnd(_, st, o, log) => EndedKeeps(r, st, o, log);
      case EchoForget(_) =>
    }
  }

  /** In every state of the in-memory registry the deque of a record holds its newest events under
      consecutive ids, its keys name past events, and there is one generation per accepted response
      and one to begin with. */
  lemma {:induction false} RecordsHold(ops: seq<R.Op>)
    ensures RecordsInv(ReplayAll(ops))
  {
    hide Replay, EchoOf, M.RecordInv;
    if ops == [] {
    } else {
      RecordsHold(ops[..|ops| - 1]);
      ReplayKeeps(ReplayAll(ops[..|ops| - 1]), EchoOf(R.Execute(R.EMPTY, ops[..|ops| - 1]), ops[|ops| - 1]));
    }
  }
}
