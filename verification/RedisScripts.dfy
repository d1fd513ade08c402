/** The Lua scripts of the Redis registry as atomic steps on the shared state.

    Each script is a function from the state before it to the state after it and its
    reply. A script that refuses returns the very state it was given. */
module RedisScripts {
  import opened RunTypes

  /** Everything the scripts share: the server clock in milliseconds, the runs, the two
      sorted sets, the metrics hash and the audit outbox. */
  datatype State = State(
    now: nat,
    runs: map<RunKey, Run>,
    active: map<RunKey, nat>,
    running: map<RunKey, nat>,
    counters: map<Status, int>,
    retained: int,
    outbox: seq<Audit>)

  const EMPTY: State := State(0, map[], map[], map[], map[], 0, [])

  // ----- Redis primitives

  function Counter(c: map<Status, int>, st: Status): int {
    if st in c then c[st] else 0
  }

  function Bump(c: map<Status, int>, st: Status, delta: int): map<Status, int> {
    c[st := Counter(c, st) + delta]
  }

  function Move(c: map<Status, int>, from: Status, to: Status): map<Status, int> {
    Bump(Bump(c, from, -1), to, 1)
  }

  /** HINCRBY last_event_id; XADD. */
  function AddEvent(r: Run, e: Event): Run {
    r.(lastEventId := r.lastEventId + 1,
       entries := r.entries + [Entry(r.lastEventId + 1, e)],
       history := r.history + [e])
  }

  function TrimEvents(r: Run): Run {
    r.(entries := Newest(r.entries, r.bufferSize))
  }

  /** HSET status, state_version + 1; XADD lifecycle. */
  function Enter(r: Run, entry: LifecycleEntry): Run {
    r.(status := entry.status, stateVersion := r.stateVersion + 1, lifecycle := r.lifecycle + [entry])
  }

  predicate Holds(r: Run, h: Handle) {
    r.owner == h.owner && r.fence == h.fence
  }

  predicate Denies(r: Run, user: Option<UserId>) {
    r.user.Some? && r.user != user
  }

  /** ZCOUNT (now, +inf). */
  function LiveScores(z: map<RunKey, nat>, now: nat): set<RunKey> {
    set k | k in z && z[k] > now
  }

  // ----- what each script writes into the run hash when it accepts

  datatype StartRequest = StartRequest(
    fingerprint: Token, kind: Kind, user: Option<UserId>, bufferSize: nat,
    instance: Instance, leaseMs: nat, limit: nat)

  const NO_OUTCOME: Outcome := Outcome(None, None, None, 500)

  function NewRun(q: StartRequest, lease: nat): Run {
    Run(q.fingerprint, q.kind, q.user, q.bufferSize, Queued, None, NO_OUTCOME, false, false,
        None, 0, q.instance, 1, lease, 1, [], [StatusChange(Queued)], map[], map[], [])
  }

  function TakeOver(r: Run, instance: Instance, lease: nat): Run {
    Enter(r.(fence := r.fence + 1, owner := instance, leaseUntil := lease,
             outcome := Outcome(r.outcome.result, None, None, 500),
             doneEmitted := false),
          LeaseTakenOver(Queued))
  }

  function AppendTo(r: Run, fence: nat, p: Payload, key: Option<EventKey>): Run {
    var r1 := TrimEvents(AddEvent(r, Event(p, Some(fence))));
    var r2 := if key.Some? then r1.(dedupe := r1.dedupe[key.value := r1.lastEventId]) else r1;
    if p.isDone then r2.(doneEmitted := true) else r2
  }

  function BeginRunning(r: Run, lease: nat): Run {
    Enter(r.(leaseUntil := lease), StatusChange(Running))
  }

  function Finish(r: Run, target: Status, outcome: Outcome): Run {
    Enter(r.(outcome := outcome, leaseUntil := 0), StatusChange(target))
  }

  function CancelRun(r: Run, error: Outcome, errorEvent: Payload, doneEvent: Payload): Run {
    var fence := r.fence + 1;
    var r1 := Enter(r.(fence := fence, outcome := error.(result := r.outcome.result), leaseUntil := 0),
                    StatusChange(Cancelled));
    if r.kind == Stream then
      TrimEvents(AddEvent(AddEvent(r1, Event(errorEvent, Some(fence))), Event(doneEvent, Some(fence)))
                 .(doneEmitted := true))
    else r1
  }

  function PauseRun(r: Run, i: Interaction, p: Payload): Run {
    var r1 := TrimEvents(AddEvent(r, Event(p, None)));
    Enter(r1.(dedupe := r1.dedupe[InteractionKey(i) := r1.lastEventId],
              interaction := Some(i), leaseUntil := 0),
          StatusChange(WaitingForInput))
  }

  function ResumeRun(r: Run, i: Interaction, response: Token, instance: Instance, lease: nat): Run {
    Enter(r.(fence := r.fence + 1, owner := instance, leaseUntil := lease, interaction := None,
             outcome := r.outcome.(errorCode := None, error := None),
             doneEmitted := false,
             responses := r.responses[response := i]),
          StatusChange(Queued))
  }

  // ----- the scripts

  datatype StartReply =
    | Conflict | Denied | Overloaded
    | Created(fence: nat) | TookOver(fence: nat) | Attached(fence: nat)

  /** _CREATE_OR_GET_LUA */
  function Start(s: State, k: RunKey, q: StartRequest): (State, StartReply) {
    var lease := s.now + q.leaseMs;
    if k in s.runs then
      var r := s.runs[k];
      if Denies(r, q.user) then (s, Denied)
      else if r.fingerprint != q.fingerprint || r.kind != q.kind then (s, Conflict)
      else if !r.status.Pending() || r.leaseUntil > s.now then (s, Attached(r.fence))
      else
        (s.(runs := s.runs[k := TakeOver(r, q.instance, lease)],
            active := s.active[k := lease],
            running := s.running - {k},
            counters := if r.status == Queued then s.counters else Move(s.counters, r.status, Queued),
            outbox := s.outbox + [Audit(RunLeaseTakenOver, k, Queued, q.instance, r.fence + 1)]),
         TookOver(r.fence + 1))
    else if |LiveScores(s.active, s.now)| >= q.limit then (s, Overloaded)
    else
      (s.(runs := s.runs[k := NewRun(q, lease)],
          active := s.active[k := lease],
          counters := Bump(s.counters, Queued, 1),
          retained := s.retained + 1,
          outbox := s.outbox + [Audit(RunAccepted, k, Queued, q.instance, 1)]),
       Created(1))
  }

  datatype AppendReply =
    | NoRun | Fenced | AlreadyTerminal | NotWhileWaiting
    | Duplicate(id: nat) | Appended(id: nat)

  /** _APPEND_EVENT_LUA */
  function Append(s: State, k: RunKey, h: Handle, p: Payload, key: Option<EventKey>): (State, AppendReply) {
    if k !in s.runs then (s, NoRun)
    else
      var r := s.runs[k];
      if !Holds(r, h) then (s, Fenced)
      else if r.status.Terminal() then (s, AlreadyTerminal)
      else if r.status == WaitingForInput && p.isDone then (s, NotWhileWaiting)
      else if key.Some? && key.value in r.dedupe then (s, Duplicate(r.dedupe[key.value]))
      else
        (s.(runs := s.runs[k := AppendTo(r, h.fence, p, key)],
            outbox := if p.audited then s.outbox + [Audit(StreamEvent, k, r.status, h.owner, h.fence)]
                      else s.outbox),
         Appended(r.lastEventId + 1))
  }

  datatype AcquireReply = AcquireMissing | AcquireFenced | NotQueued | AtCapacity | Acquired

  /** _ACQUIRE_RUNNING_LUA */
  function Acquire(s: State, k: RunKey, h: Handle, limit: nat, leaseMs: nat): (State, AcquireReply) {
    if k !in s.runs then (s, AcquireMissing)
    else if !Holds(s.runs[k], h) then (s, AcquireFenced)
    else if s.runs[k].status != Queued then (s, NotQueued)
    else if |LiveScores(s.running, s.now)| >= limit then (s, AtCapacity)
    else
      var lease := s.now + leaseMs;
      (s.(runs := s.runs[k := BeginRunning(s.runs[k], lease)],
          active := s.active[k := lease],
          running := s.running[k := lease],
          counters := Move(s.counters, Queued, Running),
          outbox := s.outbox + [Audit(RunStarted, k, Running, h.owner, h.fence)]),
       Acquired)
  }

  /** _HEARTBEAT_LUA: an expired lease is renewed like a live one. */
  function Heartbeat(s: State, k: RunKey, h: Handle, leaseMs: nat): (State, bool) {
    if k !in s.runs || !Holds(s.runs[k], h) || !s.runs[k].status.Pending() then (s, false)
    else
      var lease := s.now + leaseMs;
      (s.(runs := s.runs[k := s.runs[k].(leaseUntil := lease)],
          active := s.active[k := lease],
          running := if s.runs[k].status == Running then s.running[k := lease] else s.running),
       true)
  }

  /** _RELEASE_LEASE_LUA: `running` gets score 0 even when the run is only queued. */
  function Release(s: State, k: RunKey, h: Handle): (State, bool) {
    if k !in s.runs || !Holds(s.runs[k], h) then (s, false)
    else if !s.runs[k].status.Pending() then (s, s.runs[k].status == WaitingForInput)
    else
      (s.(runs := s.runs[k := s.runs[k].(leaseUntil := 0)],
          active := s.active[k := 0],
          running := s.running[k := 0]),
       true)
  }

  datatype TransitionReply =
    | TransitionMissing | TransitionFenced | SameStatus
    | AfterTerminal | NotATerminal | Committed

  /** _TRANSITION_LUA */
  function Transition(s: State, k: RunKey, h: Handle, target: Status, outcome: Outcome): (State, TransitionReply) {
    if k !in s.runs then (s, TransitionMissing)
    else if !Holds(s.runs[k], h) then (s, TransitionFenced)
    else
      var r := s.runs[k];
      if r.status == target then (s, SameStatus)
      else if r.status.Terminal() then (s, AfterTerminal)
      else if !target.Terminal() then (s, NotATerminal)
      else
        (s.(runs := s.runs[k := Finish(r, target, outcome)],
            active := s.active - {k},
            running := s.running - {k},
            counters := Move(s.counters, r.status, target),
            outbox := s.outbox + [Audit(RunFinished, k, target, h.owner, h.fence)]),
         Committed)
  }

  datatype CancelRequest = CancelRequest(user: Option<UserId>, error: Outcome, errorEvent: Payload, doneEvent: Payload)

  datatype CancelReply = CancelMissing | CancelDenied | WasTerminal(fence: nat) | Cancelling(fence: nat)

  /** _CANCEL_LUA */
  function Cancel(s: State, k: RunKey, q: CancelRequest): (State, CancelReply) {
    if k !in s.runs then (s, CancelMissing)
    else
      var r := s.runs[k];
      if Denies(r, q.user) then (s, CancelDenied)
      else if r.status.Terminal() then (s, WasTerminal(r.fence))
      else
        (s.(runs := s.runs[k := CancelRun(r, q.error, q.errorEvent, q.doneEvent)],
            active := s.active - {k},
            running := s.running - {k},
            counters := Move(s.counters, r.status, Cancelled),
            outbox := s.outbox + [Audit(RunCancelled, k, Cancelled, r.owner, r.fence + 1)]),
         Cancelling(r.fence + 1))
  }

  datatype WriteReply = WriteMissing | WriteFenced | WriteTerminal | Written

  /** _SET_RUN_ID_LUA: no terminal check. */
  function SetRunId(s: State, k: RunKey, h: Handle, id: Token): (State, WriteReply) {
    if k !in s.runs then (s, WriteMissing)
    else if !Holds(s.runs[k], h) then (s, WriteFenced)
    else
      (s.(runs := s.runs[k := s.runs[k].(runId := Some(id))],
          outbox := s.outbox + [Audit(RunIdAssigned, k, s.runs[k].status, h.owner, h.fence)]),
       Written)
  }

  /** _MARK_STREAM_FAILED_LUA */
  function MarkStreamFailed(s: State, k: RunKey, h: Handle, code: Token, message: Token, http: nat)
    : (State, WriteReply)
  {
    if k !in s.runs then (s, WriteMissing)
    else if !Holds(s.runs[k], h) then (s, WriteFenced)
    else if s.runs[k].status.Terminal() then (s, WriteTerminal)
    else
      var r := s.runs[k];
      (s.(runs := s.runs[k := r.(streamFailed := true,
                                 outcome := Outcome(r.outcome.result, Some(code), Some(message), http))],
          outbox := s.outbox + [Audit(RunStreamFailed, k, r.status, h.owner, h.fence)]),
       Written)
  }

  datatype PauseReply =
    | PauseMissing | PauseFenced | NotRunning | OtherInteraction
    | AlreadyPaused(id: nat) | PausedAt(id: nat)

  /** _PAUSE_FOR_INPUT_LUA */
  function Pause(s: State, k: RunKey, h: Handle, i: Interaction, p: Payload): (State, PauseReply) {
    if k !in s.runs then (s, PauseMissing)
    else
      var r := s.runs[k];
      if !Holds(r, h) then (s, PauseFenced)
      else if r.status == WaitingForInput then
        if r.interaction == Some(i)
        then (s, AlreadyPaused(if InteractionKey(i) in r.dedupe then r.dedupe[InteractionKey(i)] else 0))
        else (s, OtherInteraction)
      else if r.status != Running then (s, NotRunning)
      else
        var audit := [Audit(RunWaitingForInput, k, WaitingForInput, h.owner, h.fence)];
        (s.(runs := s.runs[k := PauseRun(r, i, p)],
            active := s.active - {k},
            running := s.running - {k},
            counters := Move(s.counters, Running, WaitingForInput),
            outbox := if p.audited
                      then s.outbox + audit + [Audit(StreamEvent, k, WaitingForInput, h.owner, h.fence)]
                      else s.outbox + audit),
         PausedAt(r.lastEventId + 1))
  }

  datatype ResumeRequest = ResumeRequest(
    user: Option<UserId>, interaction: Interaction, response: Token, instance: Instance, leaseMs: nat)

  datatype ResumeReply =
    | ResumeMissing | ResumeDenied | NotWaiting | WrongInteraction | ResponseReused
    | Replayed(fence: nat) | Resumed(fence: nat)

  /** _RESUME_LUA */
  function Resume(s: State, k: RunKey, q: ResumeRequest): (State, ResumeReply) {
    if k !in s.runs then (s, ResumeMissing)
    else
      var r := s.runs[k];
      if Denies(r, q.user) then (s, ResumeDenied)
      else if q.response in r.responses then
        if r.responses[q.response] == q.interaction then (s, Replayed(r.fence)) else (s, ResponseReused)
      else if r.status != WaitingForInput then (s, NotWaiting)
      else if r.interaction != Some(q.interaction) then (s, WrongInteraction)
      else
        var lease := s.now + q.leaseMs;
        (s.(runs := s.runs[k := ResumeRun(r, q.interaction, q.response, q.instance, lease)],
            active := s.active[k := lease],
            running := s.running - {k},
            counters := Move(s.counters, WaitingForInput, Queued),
            outbox := s.outbox + [Audit(RunInputAccepted, k, Queued, q.instance, r.fence + 1)]),
         Resumed(r.fence + 1))
  }

  // ----- interleavings

  datatype Op =
    | Tick(ms: nat)
    | Expire(k: RunKey)
    | DoStart(k: RunKey, start: StartRequest)
    | DoAppend(k: RunKey, h: Handle, payload: Payload, eventKey: Option<EventKey>)
    | DoAcquire(k: RunKey, h: Handle, limit: nat, leaseMs: nat)
    | DoHeartbeat(k: RunKey, h: Handle, leaseMs: nat)
    | DoRelease(k: RunKey, h: Handle)
    | DoTransition(k: RunKey, h: Handle, target: Status, outcome: Outcome)
    | DoCancel(k: RunKey, cancel: CancelRequest)
    | DoSetRunId(k: RunKey, h: Handle, id: Token)
    | DoMarkFailed(k: RunKey, h: Handle, code: Token, message: Token, http: nat)
    | DoPause(k: RunKey, h: Handle, interaction: Interaction, payload: Payload)
    | DoResume(k: RunKey, resume: ResumeRequest)
  {
    /** A write that has to present an owner and a fencing token. */
    predicate OwnerWrite() {
      DoAppend? || DoAcquire? || DoHeartbeat? || DoRelease? || DoTransition?
      || DoSetRunId? || DoMarkFailed? || DoPause?
    }
  }

  /** One atomic step by any instance, the clock, or the retention expiry of a terminal run. */
  function Apply(s: State, op: Op): State {
    match op
    case Tick(ms) => s.(now := s.now + ms)
    case Expire(k) => if k in s.runs && s.runs[k].status.Terminal() then s.(runs := s.runs - {k}) else s
    case DoStart(k, q) => Start(s, k, q).0
    case DoAppend(k, h, p, key) => Append(s, k, h, p, key).0
    case DoAcquire(k, h, limit, ms) => Acquire(s, k, h, limit, ms).0
    case DoHeartbeat(k, h, ms) => Heartbeat(s, k, h, ms).0
    case DoRelease(k, h) => Release(s, k, h).0
    case DoTransition(k, h, target, o) => Transition(s, k, h, target, o).0
    case DoCancel(k, q) => Cancel(s, k, q).0
    case DoSetRunId(k, h, id) => SetRunId(s, k, h, id).0
    case DoMarkFailed(k, h, c, m, http) => MarkStreamFailed(s, k, h, c, m, http).0
    case DoPause(k, h, i, p) => Pause(s, k, h, i, p).0
    case DoResume(k, q) => Resume(s, k, q).0
  }

  /** Any finite interleaving. */
  function Execute(s: State, ops: seq<Op>): State {
    if ops == [] then s else Apply(Execute(s, ops[..|ops| - 1]), ops[|ops| - 1])
  }
}
