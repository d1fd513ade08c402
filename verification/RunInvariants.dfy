/** What every script keeps about a single run, and what it never undoes. */
module RunInvariants {
  import opened RunTypes
  import opened RedisScripts

  // ----- invariants of one run

  predicate DoneWith(e: Event, fence: nat) {
    e.payload.isDone && e.fence == Some(fence)
  }

  /** A `[DONE]` carrying `fence` was written at some point. */
  ghost predicate DoneIn(history: seq<Event>, fence: nat) {
    exists i :: 0 <= i < |history| && DoneWith(history[i], fence)
  }

  /** Tokens in the log never exceed the current token and never decrease. */
  ghost predicate FencesOrdered(history: seq<Event>, top: nat) {
    && (forall i :: 0 <= i < |history| && history[i].fence.Some? ==> history[i].fence.value <= top)
    && (forall i, j :: 0 <= i < j < |history| && history[i].fence.Some? && history[j].fence.Some?
          ==> history[i].fence.value <= history[j].fence.value)
  }

  /** The whole log as stream entries, numbered from 1. */
  function Numbered(history: seq<Event>): (s: seq<Entry>)
    ensures |s| == |history|
    ensures forall i :: 0 <= i < |s| ==> s[i] == Entry(i + 1, history[i])
  {
    seq(|history|, i requires 0 <= i < |history| => Entry(i + 1, history[i]))
  }

  /** Ids run from 1 to last_event_id and the stream holds exactly the newest
      min(last_event_id, buffer size) of them. */
  ghost predicate LogContiguous(history: seq<Event>, entries: seq<Entry>, bufferSize: nat) {
    entries == Newest(Numbered(history), bufferSize)
  }

  /** How many pauses the lifecycle stream records. */
  function Pauses(l: seq<LifecycleEntry>): nat {
    if l == [] then 0
    else Pauses(l[..|l| - 1]) + if l[|l| - 1] == StatusChange(WaitingForInput) then 1 else 0
  }

  /** The lifecycle stream has one entry per state version, ends in the current status,
      and only its last entry can be terminal. */
  ghost predicate LifecycleTracks(version: nat, l: seq<LifecycleEntry>, status: Status) {
    && version == |l| > 0
    && l[|l| - 1].status == status
    && (forall i :: 0 <= i < |l| - 1 ==> !l[i].status.Terminal())
  }

  /** Accepted pauses and accepted responses alternate. */
  ghost predicate Alternates(pauses: nat, responses: nat, status: Status, interaction: Option<Interaction>) {
    && 0 <= pauses - responses <= 1
    && (status == WaitingForInput ==> pauses == responses + 1 && interaction.Some?)
    && (status.Pending() ==> pauses == responses && interaction.None?)
  }

  ghost predicate RunInv(r: Run) {
    && r.fence >= 1
    && FencesOrdered(r.history, r.fence)
    && r.lastEventId == |r.history|
    && LogContiguous(r.history, r.entries, r.bufferSize)
    && LifecycleTracks(r.stateVersion, r.lifecycle, r.status)
    && Alternates(Pauses(r.lifecycle), |r.responses|, r.status, r.interaction)
    && (r.kind == Stream && r.doneEmitted ==> DoneIn(r.history, r.fence))
    && (!r.status.Pending() ==> r.leaseUntil == 0)
  }

  // ----- what no step undoes within one incarnation

  /** `later` is reached from `r`. A terminal run keeps everything but its run id. */
  ghost predicate Evolves(r: Run, later: Run) {
    && later.fingerprint == r.fingerprint && later.kind == r.kind
    && later.user == r.user && later.bufferSize == r.bufferSize
    && r.fence <= later.fence
    && (r.fence == later.fence ==> later.owner == r.owner && (r.doneEmitted ==> later.doneEmitted))
    && r.history <= later.history
    && r.lifecycle <= later.lifecycle
    && (forall x :: x in r.responses ==> x in later.responses && later.responses[x] == r.responses[x])
    && (forall x :: x in r.dedupe && !x.InteractionKey? ==> x in later.dedupe && later.dedupe[x] == r.dedupe[x])
    && (r.status.Terminal() ==> later == r.(runId := later.runId))
    && (r.status == WaitingForInput && r.fence == later.fence ==> StillPaused(r, later))
  }

  /** Under the token of its pause, a paused run can only wait on or end, and forgets no key. */
  ghost predicate StillPaused(r: Run, later: Run) {
    && (later.status.Terminal() || (later.status == WaitingForInput && later.interaction == r.interaction))
    && (forall x :: x in r.dedupe ==> x in later.dedupe && later.dedupe[x] == r.dedupe[x])
  }

  lemma EvolvesRefl(r: Run)
    ensures Evolves(r, r)
  {
  }

  lemma EvolvesTrans(a: Run, b: Run, c: Run)
    requires Evolves(a, b) && Evolves(b, c)
    ensures Evolves(a, c)
  {
    assert a.history <= c.history;
    assert a.lifecycle <= c.lifecycle;
  }

  lemma DoneInGrows(h: seq<Event>, later: seq<Event>, fence: nat)
    requires h <= later && DoneIn(h, fence)
    ensures DoneIn(later, fence)
  {
    var i :| 0 <= i < |h| && DoneWith(h[i], fence);
    assert DoneWith(later[i], fence);
  }

  // ----- log and lifecycle updates

  lemma TrimKeeps(history: seq<Event>, entries: seq<Entry>, bufferSize: nat, e: Event)
    requires LogContiguous(history, entries, bufferSize)
    ensures LogContiguous(history + [e],
                          Newest(entries + [Entry(|history| + 1, e)], bufferSize), bufferSize)
  {
    assert Numbered(history + [e]) == Numbered(history) + [Entry(|history| + 1, e)];
  }

  /** One trim after two additions, as the cancel script does it. */
  lemma TrimTwiceKeeps(history: seq<Event>, entries: seq<Entry>, bufferSize: nat, e1: Event, e2: Event)
    requires LogContiguous(history, entries, bufferSize)
    ensures LogContiguous(history + [e1] + [e2],
                          Newest(entries + [Entry(|history| + 1, e1)] + [Entry(|history| + 2, e2)], bufferSize),
                          bufferSize)
  {
    assert Numbered(history + [e1] + [e2])
        == Numbered(history) + [Entry(|history| + 1, e1)] + [Entry(|history| + 2, e2)];
  }

  lemma FencesKeep(history: seq<Event>, top: nat, e: Event)
    requires FencesOrdered(history, top)
    requires e.fence.Some? ==> e.fence.value >= top
    ensures FencesOrdered(history + [e], if e.fence.Some? then e.fence.value else top)
    ensures e.fence.Some? && e.payload.isDone ==> DoneIn(history + [e], e.fence.value)
  {
    var h := history + [e];
    assert e.fence.Some? && e.payload.isDone ==> DoneWith(h[|h| - 1], e.fence.value);
  }

  lemma FencesRaise(history: seq<Event>, top: nat)
    requires FencesOrdered(history, top)
    ensures FencesOrdered(history, top + 1)
  {
  }

  lemma EnterKeeps(r: Run, entry: LifecycleEntry)
    requires LifecycleTracks(r.stateVersion, r.lifecycle, r.status) && !r.status.Terminal()
    ensures LifecycleTracks(r.stateVersion + 1, r.lifecycle + [entry], entry.status)
    ensures r.lifecycle <= r.lifecycle + [entry]
    ensures Pauses(r.lifecycle + [entry])
            == Pauses(r.lifecycle) + if entry == StatusChange(WaitingForInput) then 1 else 0
  {
    assert (r.lifecycle + [entry])[..|r.lifecycle|] == r.lifecycle;
  }

  // ----- each script's write

  lemma NewRunKeeps(q: StartRequest, lease: nat)
    ensures RunInv(NewRun(q, lease))
  {
    assert [StatusChange(Queued)][..0] == [];
  }

  lemma TakeOverKeeps(r: Run, instance: Instance, lease: nat)
    requires RunInv(r) && r.status.Pending()
    ensures RunInv(TakeOver(r, instance, lease)) && Evolves(r, TakeOver(r, instance, lease))
  {
    hide FencesOrdered, LogContiguous, LifecycleTracks, DoneIn, Newest, Pauses;
    FencesRaise(r.history, r.fence);
    EnterKeeps(r, LeaseTakenOver(Queued));
  }

  /** Adding an event under the current token, or none, and trimming. */
  lemma AddedKeeps(r: Run, e: Event)
    requires RunInv(r) && !r.status.Terminal()
    requires e.fence.Some? ==> e.fence.value == r.fence
    ensures RunInv(TrimEvents(AddEvent(r, e))) && Evolves(r, TrimEvents(AddEvent(r, e)))
    ensures e.fence.Some? && e.payload.isDone ==> DoneIn(r.history + [e], r.fence)
  {
    hide FencesOrdered, LogContiguous, LifecycleTracks, DoneIn, Newest, Pauses, Alternates;
    TrimKeeps(r.history, r.entries, r.bufferSize, e);
    FencesKeep(r.history, r.fence, e);
    if r.kind == Stream && r.doneEmitted { DoneInGrows(r.history, r.history + [e], r.fence); }
  }

  lemma AppendKeeps(r: Run, p: Payload, key: Option<EventKey>)
    requires RunInv(r) && !r.status.Terminal()
    requires key.Some? ==> key.value !in r.dedupe
    ensures RunInv(AppendTo(r, r.fence, p, key)) && Evolves(r, AppendTo(r, r.fence, p, key))
  {
    hide FencesOrdered, LogContiguous, LifecycleTracks, DoneIn, Newest, Pauses, Alternates;
    AddedKeeps(r, Event(p, Some(r.fence)));
  }

  lemma BeginRunningKeeps(r: Run, lease: nat)
    requires RunInv(r) && r.status == Queued
    ensures RunInv(BeginRunning(r, lease)) && Evolves(r, BeginRunning(r, lease))
  {
    hide FencesOrdered, LogContiguous, LifecycleTracks, DoneIn, Newest, Pauses;
    EnterKeeps(r, StatusChange(Running));
  }

  lemma FinishKeeps(r: Run, target: Status, outcome: Outcome)
    requires RunInv(r) && !r.status.Terminal() && target.Terminal()
    ensures RunInv(Finish(r, target, outcome)) && Evolves(r, Finish(r, target, outcome))
  {
    hide FencesOrdered, LogContiguous, LifecycleTracks, DoneIn, Newest, Pauses;
    EnterKeeps(r, StatusChange(target));
  }

  lemma CancelStreamLog(r: Run, q: CancelRequest)
    requires RunInv(r) && q.doneEvent.isDone
    ensures var e1, e2 := Event(q.errorEvent, Some(r.fence + 1)), Event(q.doneEvent, Some(r.fence + 1));
            var log := r.history + [e1] + [e2];
            && LogContiguous(log, Newest(r.entries + [Entry(|r.history| + 1, e1)] + [Entry(|r.history| + 2, e2)],
                                         r.bufferSize), r.bufferSize)
            && FencesOrdered(log, r.fence + 1)
            && DoneIn(log, r.fence + 1)
            && r.history <= log
  {
    hide FencesOrdered, LogContiguous, LifecycleTracks, DoneIn, DoneWith, Newest, Pauses, Alternates;
    var e1, e2 := Event(q.errorEvent, Some(r.fence + 1)), Event(q.doneEvent, Some(r.fence + 1));
    TrimTwiceKeeps(r.history, r.entries, r.bufferSize, e1, e2);
    FencesKeep(r.history, r.fence, e1);
    FencesKeep(r.history + [e1], r.fence + 1, e2);
  }

  lemma CancelKeeps(r: Run, q: CancelRequest)
    requires RunInv(r) && !r.status.Terminal() && q.doneEvent.isDone
    ensures RunInv(CancelRun(r, q.error, q.errorEvent, q.doneEvent))
    ensures Evolves(r, CancelRun(r, q.error, q.errorEvent, q.doneEvent))
    ensures r.kind == Stream ==>
              DoneIn(CancelRun(r, q.error, q.errorEvent, q.doneEvent).history, r.fence + 1)
  {
    hide FencesOrdered, LogContiguous, LifecycleTracks, DoneIn, DoneWith, Newest, Pauses;
    FencesRaise(r.history, r.fence);
    EnterKeeps(r, StatusChange(Cancelled));
    CancelStreamLog(r, q);
  }

  lemma PauseKeeps(r: Run, i: Interaction, p: Payload)
    requires RunInv(r) && r.status == Running
    ensures RunInv(PauseRun(r, i, p)) && Evolves(r, PauseRun(r, i, p))
  {
    hide FencesOrdered, LogContiguous, LifecycleTracks, DoneIn, Newest, Pauses;
    AddedKeeps(r, Event(p, None));
    EnterKeeps(r, StatusChange(WaitingForInput));
  }

  lemma ResumeKeeps(r: Run, q: ResumeRequest, lease: nat)
    requires RunInv(r) && r.status == WaitingForInput && q.response !in r.responses
    ensures RunInv(ResumeRun(r, q.interaction, q.response, q.instance, lease))
    ensures Evolves(r, ResumeRun(r, q.interaction, q.response, q.instance, lease))
  {
    hide FencesOrdered, LogContiguous, LifecycleTracks, DoneIn, Newest, Pauses;
    FencesRaise(r.history, r.fence);
    EnterKeeps(r, StatusChange(Queued));
    assert |r.responses[q.response := q.interaction]| == |r.responses| + 1;
  }

  /** A write that leaves the streams, the status and the token alone. */
  lemma FieldsKeep(r: Run, r': Run)
    requires RunInv(r)
    requires r' == r.(leaseUntil := r'.leaseUntil, runId := r'.runId, streamFailed := r'.streamFailed,
                      outcome := r'.outcome)
    requires r'.leaseUntil == r.leaseUntil || r.status.Pending()
    requires r.status.Terminal() ==> r' == r.(runId := r'.runId)
    ensures RunInv(r') && Evolves(r, r')
  {
    hide FencesOrdered, LogContiguous, LifecycleTracks, DoneIn, Newest, Pauses, Alternates;
  }

  // ----- every step of every interleaving

  ghost predicate StateInv(s: State) {
    forall k :: k in s.runs ==> RunInv(s.runs[k])
  }

  /** What the callers of the scripts always pass: the done payload of a cancellation is `[DONE]`. */
  predicate WellFormed(op: Op) {
    op.DoCancel? ==> op.cancel.doneEvent.isDone
  }

  /** A step touches one run at most. That run is untouched, created, expired, or evolves. */
  ghost predicate Kept(s: State, s': State) {
    && StateInv(s')
    && (forall k :: k in s.runs && k in s'.runs ==> Evolves(s.runs[k], s'.runs[k]))
    && (forall k :: k in s.runs && k !in s'.runs ==> s.runs[k].status.Terminal())
  }

  lemma Touch(s: State, s': State, k: RunKey, r: Run)
    requires StateInv(s) && s'.runs == s.runs[k := r]
    requires RunInv(r) && (k in s.runs ==> Evolves(s.runs[k], r))
    ensures Kept(s, s')
  {
    hide RunInv, Evolves;
    forall j | j in s.runs && j != k ensures Evolves(s.runs[j], s'.runs[j]) {
      EvolvesRefl(s.runs[j]);
    }
  }

  lemma Still(s: State, s': State)
    requires StateInv(s) && s'.runs == s.runs
    ensures Kept(s, s')
  {
    hide RunInv, Evolves;
    forall j | j in s.runs ensures Evolves(s.runs[j], s.runs[j]) {
      EvolvesRefl(s.runs[j]);
    }
  }

  lemma ExpireKeeps(s: State, k: RunKey)
    requires StateInv(s) && k in s.runs && s.runs[k].status.Terminal()
    ensures Kept(s, s.(runs := s.runs - {k}))
  {
    hide RunInv, Evolves;
    forall j | j in s.runs ensures Evolves(s.runs[j], s.runs[j]) {
      EvolvesRefl(s.runs[j]);
    }
  }

  lemma StartStep(s: State, k: RunKey, q: StartRequest)
    requires StateInv(s)
    ensures Kept(s, Start(s, k, q).0)
  {
    hide RunInv, Evolves, TakeOver, NewRun;
    var (s', reply) := Start(s, k, q);
    if reply.Created? {
      NewRunKeeps(q, s.now + q.leaseMs);
      Touch(s, s', k, NewRun(q, s.now + q.leaseMs));
    } else if reply.TookOver? {
      TakeOverKeeps(s.runs[k], q.instance, s.now + q.leaseMs);
      Touch(s, s', k, TakeOver(s.runs[k], q.instance, s.now + q.leaseMs));
    } else {
      Still(s, s');
    }
  }

  lemma AppendStep(s: State, k: RunKey, h: Handle, p: Payload, key: Option<EventKey>)
    requires StateInv(s)
    ensures Kept(s, Append(s, k, h, p, key).0)
  {
    hide RunInv, Evolves, AppendTo;
    var (s', reply) := Append(s, k, h, p, key);
    if reply.Appended? {
      AppendKeeps(s.runs[k], p, key);
      Touch(s, s', k, AppendTo(s.runs[k], h.fence, p, key));
    } else {
      Still(s, s');
    }
  }

  lemma TransitionStep(s: State, k: RunKey, h: Handle, target: Status, o: Outcome)
    requires StateInv(s)
    ensures Kept(s, Transition(s, k, h, target, o).0)
  {
    hide RunInv, Evolves, Finish;
    var (s', reply) := Transition(s, k, h, target, o);
    if reply.Committed? {
      FinishKeeps(s.runs[k], target, o);
      Touch(s, s', k, Finish(s.runs[k], target, o));
    } else {
      Still(s, s');
    }
  }

  lemma CancelStep(s: State, k: RunKey, q: CancelRequest)
    requires StateInv(s) && q.doneEvent.isDone
    ensures Kept(s, Cancel(s, k, q).0)
  {
    hide RunInv, Evolves, CancelRun;
    var (s', reply) := Cancel(s, k, q);
    if reply.Cancelling? {
      CancelKeeps(s.runs[k], q);
      Touch(s, s', k, CancelRun(s.runs[k], q.error, q.errorEvent, q.doneEvent));
    } else {
      Still(s, s');
    }
  }

  lemma PauseStep(s: State, k: RunKey, h: Handle, i: Interaction, p: Payload)
    requires StateInv(s)
    ensures Kept(s, Pause(s, k, h, i, p).0)
  {
    hide RunInv, Evolves, PauseRun;
    var (s', reply) := Pause(s, k, h, i, p);
    if reply.PausedAt? {
      PauseKeeps(s.runs[k], i, p);
      Touch(s, s', k, PauseRun(s.runs[k], i, p));
    } else {
      Still(s, s');
    }
  }

  lemma ResumeStep(s: State, k: RunKey, q: ResumeRequest)
    requires StateInv(s)
    ensures Kept(s, Resume(s, k, q).0)
  {
    hide RunInv, Evolves, ResumeRun;
    var (s', reply) := Resume(s, k, q);
    if reply.Resumed? {
      var lease := s.now + q.leaseMs;
      ResumeKeeps(s.runs[k], q, lease);
      Touch(s, s', k, ResumeRun(s.runs[k], q.interaction, q.response, q.instance, lease));
    } else {
      Still(s, s');
    }
  }

  lemma AcquireStep(s: State, k: RunKey, h: Handle, limit: nat, leaseMs: nat)
    requires StateInv(s)
    ensures Kept(s, Acquire(s, k, h, limit, leaseMs).0)
  {
    hide RunInv, Evolves, BeginRunning;
    var (s', reply) := Acquire(s, k, h, limit, leaseMs);
    if reply.Acquired? {
      BeginRunningKeeps(s.runs[k], s.now + leaseMs);
      Touch(s, s', k, BeginRunning(s.runs[k], s.now + leaseMs));
    } else {
      Still(s, s');
    }
  }

  /** The scripts that write no log, and expiry. */
  lemma FieldStep(s: State, op: Op)
    requires StateInv(s)
    requires op.Expire? || op.DoHeartbeat? || op.DoRelease? || op.DoSetRunId? || op.DoMarkFailed?
    ensures Kept(s, Apply(s, op))
  {
    hide RunInv, Evolves;
    var s', k := Apply(s, op), op.k;
    if s' == s {
      Still(s, s');
    } else if op.Expire? {
      ExpireKeeps(s, k);
    } else {
      var r := s.runs[k];
      FieldsKeep(r, s'.runs[k]);
      Touch(s, s', k, s'.runs[k]);
    }
  }

  lemma StepKeeps(s: State, op: Op)
    requires StateInv(s) && WellFormed(op)
    ensures Kept(s, Apply(s, op))
  {
    hide Start, Append, Acquire, Transition, Cancel, Pause, Resume, Kept;
    match op
    case Tick(_) => Still(s, Apply(s, op));
    case DoStart(k, q) => StartStep(s, k, q);
    case DoAppend(k, h, p, key) => AppendStep(s, k, h, p, key);
    case DoAcquire(k, h, limit, ms) => AcquireStep(s, k, h, limit, ms);
    case DoTransition(k, h, target, o) => TransitionStep(s, k, h, target, o);
    case DoCancel(k, q) => CancelStep(s, k, q);
    case DoPause(k, h, i, p) => PauseStep(s, k, h, i, p);
    case DoResume(k, q) => ResumeStep(s, k, q);
    case _ => FieldStep(s, op);
  }

  ghost predicate AllWellFormed(ops: seq<Op>) {
    forall i :: 0 <= i < |ops| ==> WellFormed(ops[i])
  }

  /** Every run of every reachable state satisfies the invariant. */
  lemma {:induction false} ReachableInv(ops: seq<Op>)
    requires AllWellFormed(ops)
    ensures StateInv(Execute(EMPTY, ops))
  {
    hide RunInv, Evolves;
    if ops == [] {
    } else {
      ReachableInv(ops[..|ops| - 1]);
      StepKeeps(Execute(EMPTY, ops[..|ops| - 1]), ops[|ops| - 1]);
    }
  }

  /** Reached from the empty state by some interleaving. */
  ghost predicate Reachable(s: State) {
    exists ops :: AllWellFormed(ops) && s == Execute(EMPTY, ops)
  }

  lemma ReachableStateInv(s: State)
    requires Reachable(s)
    ensures StateInv(s)
  {
    var ops :| AllWellFormed(ops) && s == Execute(EMPTY, ops);
    ReachableInv(ops);
  }

  /** One incarnation: the run exists after every prefix of `ops`. */
  ghost predicate Survives(s: State, ops: seq<Op>, k: RunKey) {
    forall n :: 0 <= n <= |ops| ==> k in Execute(s, ops[..n]).runs
  }

  /** Over any interleaving the run only evolves. */
  lemma {:induction false} RunEvolves(s: State, ops: seq<Op>, k: RunKey)
    requires StateInv(s) && AllWellFormed(ops) && Survives(s, ops, k)
    ensures k in s.runs && k in Execute(s, ops).runs
    ensures StateInv(Execute(s, ops)) && Evolves(s.runs[k], Execute(s, ops).runs[k])
  {
    hide RunInv, Evolves;
    assert ops[..0] == [] && ops[..|ops|] == ops;
    assert k in Execute(s, ops[..0]).runs;
    EvolvesRefl(s.runs[k]);
    if ops == [] {
    } else {
      var shorter := ops[..|ops| - 1];
      forall n | 0 <= n <= |shorter| ensures k in Execute(s, shorter[..n]).runs {
        assert shorter[..n] == ops[..n];
      }
      RunEvolves(s, shorter, k);
      StepKeeps(Execute(s, shorter), ops[|ops| - 1]);
      EvolvesTrans(s.runs[k], Execute(s, shorter).runs[k], Execute(s, ops).runs[k]);
    }
  }
}
