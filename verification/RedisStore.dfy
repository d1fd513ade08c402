/** The Lua scripts as they run: in-place updates of hashes, streams and sorted sets, one
    command after another. Each is proved to have the effect and the reply of its
    specification in RedisScripts. */
module RedisStore {
  import opened RunTypes
  import opened RedisScripts

  // ----- commands on the keys of one run, which a script works on until it is done

  /** HINCRBY last_event_id, then XADD under that id. */
  method XAdd(run: Run, e: Event) returns (run': Run, id: nat)
    ensures run' == AddEvent(run, e) && id == run.lastEventId + 1
  {
    id := run.lastEventId + 1;
    run' := run.(lastEventId := id);
    run' := run'.(entries := run.entries + [Entry(id, e)], history := run.history + [e]);
  }

  /** XTRIM MAXLEN drops the oldest entries until `bufferSize` are left. */
  method XTrim(run: Run) returns (run': Run)
    ensures run' == TrimEvents(run)
  {
    var kept := run.entries;
    while |kept| > run.bufferSize
      invariant Newest(kept, run.bufferSize) == Newest(run.entries, run.bufferSize)
    {
      assert |kept| - 1 > run.bufferSize ==>
          kept[1..][|kept| - 1 - run.bufferSize..] == kept[|kept| - run.bufferSize..];
      kept := kept[1..];
    }
    run' := run.(entries := kept);
  }

  /** HSET status and state_version, then XADD to the lifecycle stream. */
  method SetStatus(run: Run, entry: LifecycleEntry) returns (run': Run)
    ensures run' == Enter(run, entry)
  {
    run' := run.(status := entry.status, stateVersion := run.stateVersion + 1);
    run' := run'.(lifecycle := run.lifecycle + [entry]);
  }

  class Store {
    var now: nat
    var runs: map<RunKey, Run>
    var active: map<RunKey, nat>
    var running: map<RunKey, nat>
    var counters: map<Status, int>
    var retained: int
    var outbox: seq<Audit>

    function Snapshot(): State
      reads this
    {
      State(now, runs, active, running, counters, retained, outbox)
    }

    constructor ()
      ensures Snapshot() == EMPTY
    {
      now, runs, active, running, counters, retained, outbox := 0, map[], map[], map[], map[], 0, [];
    }

    // ----- commands on the shared keys

    method MoveCounter(from: Status, to: Status)
      modifies `counters
      ensures counters == Move(old(counters), from, to)
    {
      counters := counters[from := Counter(counters, from) - 1];
      counters := counters[to := Counter(counters, to) + 1];
    }

    method Record(kind: AuditKind, k: RunKey, status: Status, owner: Instance, fence: nat)
      modifies `outbox
      ensures outbox == old(outbox) + [Audit(kind, k, status, owner, fence)]
    {
      outbox := outbox + [Audit(kind, k, status, owner, fence)];
    }

    // ----- scripts

    /** The takeover branch: the lease of a pending run has expired. */
    method TakeOverLease(k: RunKey, q: StartRequest) returns (fence: nat)
      requires k in runs && !Denies(runs[k], q.user)
      requires runs[k].fingerprint == q.fingerprint && runs[k].kind == q.kind
      requires runs[k].status.Pending() && runs[k].leaseUntil <= now
      modifies this
      ensures (Snapshot(), TookOver(fence)) == Start(old(Snapshot()), k, q)
    {
      hide Move, Newest, LiveScores;
      var r := runs[k];
      var run, lease := r.(fence := r.fence + 1), now + q.leaseMs;
      run := run.(owner := q.instance, leaseUntil := lease, doneEmitted := false,
                  outcome := r.outcome.(errorCode := None, error := None, httpStatus := 500));
      run := SetStatus(run, LeaseTakenOver(Queued));
      runs, active, running := runs[k := run], active[k := lease], running - {k};
      if r.status != Queued { MoveCounter(r.status, Queued); }
      Record(RunLeaseTakenOver, k, Queued, q.instance, run.fence);
      return run.fence;
    }

    method StartScript(k: RunKey, q: StartRequest) returns (reply: StartReply)
      modifies this
      ensures (Snapshot(), reply) == Start(old(Snapshot()), k, q)
    {
      hide Move, Newest, LiveScores;
      if k in runs {
        var r := runs[k];
        if r.user.Some? && r.user != q.user { return Denied; }
        if r.fingerprint != q.fingerprint || r.kind != q.kind { return Conflict; }
        if r.status == WaitingForInput { return Attached(r.fence); }
        if r.status.Terminal() { return Attached(r.fence); }
        if r.leaseUntil <= now {
          var fence := TakeOverLease(k, q);
          return TookOver(fence);
        }
        return Attached(r.fence);
      }
      if |LiveScores(active, now)| >= q.limit { return Overloaded; }
      var lease := now + q.leaseMs;
      runs := runs[k := NewRun(q, lease)];
      active := active[k := lease];
      counters := counters[Queued := Counter(counters, Queued) + 1];
      retained := retained + 1;
      Record(RunAccepted, k, Queued, q.instance, 1);
      return Created(1);
    }

    method AppendScript(k: RunKey, h: Handle, p: Payload, key: Option<EventKey>) returns (reply: AppendReply)
      modifies this
      ensures (Snapshot(), reply) == Append(old(Snapshot()), k, h, p, key)
    {
      if k !in runs { return NoRun; }
      if runs[k].owner != h.owner || runs[k].fence != h.fence { return Fenced; }
      var status := runs[k].status;
      if status.Terminal() { return AlreadyTerminal; }
      if status == WaitingForInput && p.isDone { return NotWhileWaiting; }
      if key.Some? && key.value in runs[k].dedupe { return Duplicate(runs[k].dedupe[key.value]); }
      var run, id := XAdd(runs[k], Event(p, Some(h.fence)));
      run := XTrim(run);
      if key.Some? { run := run.(dedupe := run.dedupe[key.value := id]); }
      if p.isDone { run := run.(doneEmitted := true); }
      runs := runs[k := run];
      if p.audited { Record(StreamEvent, k, status, h.owner, h.fence); }
      return Appended(id);
    }

    method AcquireScript(k: RunKey, h: Handle, limit: nat, leaseMs: nat) returns (reply: AcquireReply)
      modifies this
      ensures (Snapshot(), reply) == Acquire(old(Snapshot()), k, h, limit, leaseMs)
    {
      hide Move, Newest, LiveScores;
      if k !in runs { return AcquireMissing; }
      var r := runs[k];
      if r.owner != h.owner || r.fence != h.fence { return AcquireFenced; }
      if r.status != Queued { return NotQueued; }
      if |LiveScores(running, now)| >= limit { return AtCapacity; }
      var lease := now + leaseMs;
      var run := SetStatus(r.(leaseUntil := lease), StatusChange(Running));
      runs, active, running := runs[k := run], active[k := lease], running[k := lease];
      MoveCounter(Queued, Running);
      Record(RunStarted, k, Running, h.owner, h.fence);
      return Acquired;
    }

    method HeartbeatScript(k: RunKey, h: Handle, leaseMs: nat) returns (renewed: bool)
      modifies this
      ensures (Snapshot(), renewed) == Heartbeat(old(Snapshot()), k, h, leaseMs)
    {
      if k !in runs { return false; }
      var r := runs[k];
      if r.owner != h.owner || r.fence != h.fence { return false; }
      if r.status == WaitingForInput { return false; }
      if r.status.Terminal() { return false; }
      var lease := now + leaseMs;
      runs := runs[k := r.(leaseUntil := lease)];
      active := active[k := lease];
      if r.status == Running { running := running[k := lease]; }
      return true;
    }

    method ReleaseScript(k: RunKey, h: Handle) returns (released: bool)
      modifies this
      ensures (Snapshot(), released) == Release(old(Snapshot()), k, h)
    {
      if k !in runs { return false; }
      var r := runs[k];
      if r.owner != h.owner || r.fence != h.fence { return false; }
      if r.status == WaitingForInput { return true; }
      if r.status.Terminal() { return false; }
      runs := runs[k := r.(leaseUntil := 0)];
      active := active[k := 0];
      running := running[k := 0];
      return true;
    }

    method TransitionScript(k: RunKey, h: Handle, target: Status, outcome: Outcome) returns (reply: TransitionReply)
      modifies this
      ensures (Snapshot(), reply) == Transition(old(Snapshot()), k, h, target, outcome)
    {
      hide Move, Newest;
      if k !in runs { return TransitionMissing; }
      var r := runs[k];
      if r.owner != h.owner || r.fence != h.fence { return TransitionFenced; }
      if r.status == target { return SameStatus; }
      if r.status.Terminal() { return AfterTerminal; }
      if !target.Terminal() { return NotATerminal; }
      var run := SetStatus(r.(outcome := outcome, leaseUntil := 0), StatusChange(target));
      runs, active, running := runs[k := run], active - {k}, running - {k};
      MoveCounter(r.status, target);
      Record(RunFinished, k, target, h.owner, h.fence);
      return Committed;
    }

    method CancelScript(k: RunKey, q: CancelRequest) returns (reply: CancelReply)
      modifies this
      ensures (Snapshot(), reply) == Cancel(old(Snapshot()), k, q)
    {
      hide Move, Newest;
      if k !in runs { return CancelMissing; }
      var r := runs[k];
      if r.user.Some? && r.user != q.user { return CancelDenied; }
      if r.status.Terminal() { return WasTerminal(r.fence); }
      var fence := r.fence + 1;
      var run := r.(fence := fence, leaseUntil := 0, outcome := q.error.(result := r.outcome.result));
      run := SetStatus(run, StatusChange(Cancelled));
      if r.kind == Stream {
        var id;
        run, id := XAdd(run, Event(q.errorEvent, Some(fence)));
        run, id := XAdd(run, Event(q.doneEvent, Some(fence)));
        run := run.(doneEmitted := true);
        run := XTrim(run);
      }
      runs, active, running := runs[k := run], active - {k}, running - {k};
      MoveCounter(r.status, Cancelled);
      Record(RunCancelled, k, Cancelled, r.owner, fence);
      return Cancelling(fence);
    }

    method SetRunIdScript(k: RunKey, h: Handle, id: Token) returns (reply: WriteReply)
      modifies this
      ensures (Snapshot(), reply) == SetRunId(old(Snapshot()), k, h, id)
    {
      if k !in runs { return WriteMissing; }
      if runs[k].owner != h.owner || runs[k].fence != h.fence { return WriteFenced; }
      var status := runs[k].status;
      runs := runs[k := runs[k].(runId := Some(id))];
      Record(RunIdAssigned, k, status, h.owner, h.fence);
      return Written;
    }

    method MarkStreamFailedScript(k: RunKey, h: Handle, code: Token, message: Token, http: nat)
      returns (reply: WriteReply)
      modifies this
      ensures (Snapshot(), reply) == MarkStreamFailed(old(Snapshot()), k, h, code, message, http)
    {
      if k !in runs { return WriteMissing; }
      var r := runs[k];
      if r.owner != h.owner || r.fence != h.fence { return WriteFenced; }
      if r.status.Terminal() { return WriteTerminal; }
      var failure := r.outcome.(errorCode := Some(code), error := Some(message), httpStatus := http);
      runs := runs[k := r.(streamFailed := true, outcome := failure)];
      Record(RunStreamFailed, k, r.status, h.owner, h.fence);
      return Written;
    }

    method PauseScript(k: RunKey, h: Handle, i: Interaction, p: Payload) returns (reply: PauseReply)
      modifies this
      ensures (Snapshot(), reply) == Pause(old(Snapshot()), k, h, i, p)
    {
      hide Move, Newest;
      if k !in runs { return PauseMissing; }
      var r := runs[k];
      if r.owner != h.owner || r.fence != h.fence { return PauseFenced; }
      if r.status == WaitingForInput {
        if r.interaction == Some(i) {
          return AlreadyPaused(if InteractionKey(i) in r.dedupe then r.dedupe[InteractionKey(i)] else 0);
        }
        return OtherInteraction;
      }
      if r.status != Running { return NotRunning; }
      var run, id := XAdd(r, Event(p, None));
      run := XTrim(run);
      run := run.(dedupe := run.dedupe[InteractionKey(i) := id], interaction := Some(i), leaseUntil := 0);
      run := SetStatus(run, StatusChange(WaitingForInput));
      runs, active, running := runs[k := run], active - {k}, running - {k};
      MoveCounter(Running, WaitingForInput);
      Record(RunWaitingForInput, k, WaitingForInput, h.owner, h.fence);
      if p.audited { Record(StreamEvent, k, WaitingForInput, h.owner, h.fence); }
      return PausedAt(id);
    }

    method ResumeScript(k: RunKey, q: ResumeRequest) returns (reply: ResumeReply)
      modifies this
      ensures (Snapshot(), reply) == Resume(old(Snapshot()), k, q)
    {
      hide Move, Newest;
      if k !in runs { return ResumeMissing; }
      var r := runs[k];
      if r.user.Some? && r.user != q.user { return ResumeDenied; }
      if q.response in r.responses {
        if r.responses[q.response] == q.interaction { return Replayed(r.fence); }
        return ResponseReused;
      }
      if r.status != WaitingForInput { return NotWaiting; }
      if r.interaction != Some(q.interaction) { return WrongInteraction; }
      var run, lease := r.(fence := r.fence + 1), now + q.leaseMs;
      run := run.(owner := q.instance, leaseUntil := lease, interaction := None,
                  outcome := r.outcome.(errorCode := None, error := None), doneEmitted := false);
      run := run.(responses := r.responses[q.response := q.interaction]);
      run := SetStatus(run, StatusChange(Queued));
      runs, active, running := runs[k := run], active[k := lease], running - {k};
      MoveCounter(WaitingForInput, Queued);
      Record(RunInputAccepted, k, Queued, q.instance, run.fence);
      return Resumed(run.fence);
    }
  }
}
