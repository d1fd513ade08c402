/** Safety of whole runs of the registry: `s` is reached by any interleaving of scripts by any
    number of instances, `more` is any continuation during which the run's key has not expired. */
module RunTheorems {
  import opened RunTypes
  import opened RedisScripts
  import opened RunInvariants

  ghost predicate Continues(s: State, more: seq<Op>, k: RunKey) {
    Reachable(s) && AllWellFormed(more) && Survives(s, more, k)
  }

  lemma Later(s: State, more: seq<Op>, k: RunKey) returns (r: Run, later: Run)
    requires Continues(s, more, k)
    ensures k in s.runs && r == s.runs[k]
    ensures k in Execute(s, more).runs && later == Execute(s, more).runs[k]
    ensures RunInv(r) && RunInv(later) && Evolves(r, later)
  {
    hide RunInv, Evolves;
    ReachableStateInv(s);
    RunEvolves(s, more, k);
    r, later := s.runs[k], Execute(s, more).runs[k];
  }

  /** Tokens never decrease, a token value belongs to one owner, and the tokens in the log
      are non-decreasing and bounded by the current one. */
  lemma Fencing(s: State, more: seq<Op>, k: RunKey)
    requires Continues(s, more, k)
    ensures k in s.runs && k in Execute(s, more).runs
    ensures var r, later := s.runs[k], Execute(s, more).runs[k];
            && r.fence <= later.fence
            && (r.fence == later.fence ==> r.owner == later.owner)
            && FencesOrdered(later.history, later.fence)
  {
    var _, _ := Later(s, more, k);
  }

  /** The guard every owner write shares. */
  lemma RefusedWrite(s: State, op: Op)
    requires op.OwnerWrite()
    requires op.k in s.runs ==> s.runs[op.k].owner != op.h.owner || s.runs[op.k].fence != op.h.fence
    ensures Apply(s, op) == s
  {
  }

  /** A write whose token has been superseded changes nothing at all, now or later. */
  lemma SupersededWriteIsInert(s: State, more: seq<Op>, k: RunKey, op: Op)
    requires Continues(s, more, k)
    requires op.OwnerWrite() && op.k == k && k in s.runs && op.h.fence < s.runs[k].fence
    ensures Apply(Execute(s, more), op) == Execute(s, more)
  {
    hide Apply;
    Fencing(s, more, k);
    RefusedWrite(Execute(s, more), op);
  }

  /** A terminal run keeps status, log, token, outcome, lifecycle, dedupe map and accepted
      responses for the rest of its incarnation: everything but `run_id`. */
  lemma TerminalIsAbsorbing(s: State, more: seq<Op>, k: RunKey)
    requires Continues(s, more, k) && k in s.runs && s.runs[k].status.Terminal()
    ensures k in Execute(s, more).runs
    ensures Execute(s, more).runs[k] == s.runs[k].(runId := Execute(s, more).runs[k].runId)
  {
    var _, _ := Later(s, more, k);
  }

  /** `run_id` really is outside that guarantee: the script has no terminal check. */
  lemma RunIdOfTerminalRunCanChange(s: State, k: RunKey, h: Handle, id: Token)
    requires k in s.runs && s.runs[k].status.Terminal() && Holds(s.runs[k], h)
    requires s.runs[k].runId != Some(id)
    ensures Apply(s, DoSetRunId(k, h, id)).runs[k] != s.runs[k]
  {
    assert Apply(s, DoSetRunId(k, h, id)).runs[k].runId == Some(id);
  }

  /** Exactly which step changes a terminal run that it does not expire: an assignment of another
      `run_id` by its owner. */
  lemma TerminalRunChangesIff(s: State, op: Op, k: RunKey)
    requires k in s.runs && s.runs[k].status.Terminal() && k in Apply(s, op).runs
    ensures Apply(s, op).runs[k] != s.runs[k]
            <==> op.DoSetRunId? && op.k == k && Holds(s.runs[k], op.h) && s.runs[k].runId != Some(op.id)
  {
    hide TakeOver, NewRun, AppendTo, BeginRunning, Finish, CancelRun, PauseRun, ResumeRun,
         Move, Bump, Denies, LiveScores;
    if op.DoSetRunId? && op.k == k && Holds(s.runs[k], op.h) {
      assert Apply(s, op).runs[k].runId == Some(op.id);
    }
  }

  /** The stream holds exactly the newest min(last_event_id, buffer size) events, each with the
      id under which it was appended; the lifecycle stream has one entry per state version. */
  lemma LogIsContiguous(s: State, k: RunKey)
    requires Reachable(s) && k in s.runs
    ensures var r := s.runs[k];
            && |r.history| == r.lastEventId
            && |r.entries| == (if r.lastEventId <= r.bufferSize then r.lastEventId else r.bufferSize)
            && (forall i :: 0 <= i < |r.entries| ==>
                  && r.entries[i].id == r.lastEventId - |r.entries| + i + 1
                  && r.entries[i].event == r.history[r.entries[i].id - 1])
            && r.stateVersion == |r.lifecycle| > 0
            && r.lifecycle[|r.lifecycle| - 1].status == r.status
  {
    ReachableStateInv(s);
    Window(s.runs[k]);
  }

  /** The trimmed stream, entry by entry. */
  lemma Window(r: Run)
    requires RunInv(r)
    ensures |r.entries| == (if r.lastEventId <= r.bufferSize then r.lastEventId else r.bufferSize)
    ensures forall i :: 0 <= i < |r.entries| ==>
              && r.entries[i].id == r.lastEventId - |r.entries| + i + 1
              && r.entries[i].event == r.history[r.entries[i].id - 1]
  {
    hide FencesOrdered, LifecycleTracks, DoneIn, Alternates, Pauses, Numbered;
    var all := Numbered(r.history);
    assert r.entries == Newest(all, r.bufferSize);
    forall i | 0 <= i < |r.entries|
      ensures r.entries[i].id == r.lastEventId - |r.entries| + i + 1
      ensures r.entries[i].event == r.history[r.entries[i].id - 1]
    {
      assert r.entries[i] == all[|all| - |r.entries| + i];
    }
  }

  /** Accepted pauses minus accepted responses is 0 or 1, and 1 whenever the run is waiting. */
  lemma PausesAlternate(s: State, k: RunKey)
    requires Reachable(s) && k in s.runs
    ensures var r := s.runs[k];
            && |r.responses| <= Pauses(r.lifecycle) <= |r.responses| + 1
            && (r.status == WaitingForInput ==> Pauses(r.lifecycle) == |r.responses| + 1)
            && (r.status.Pending() ==> Pauses(r.lifecycle) == |r.responses|)
  {
    ReachableStateInv(s);
    assert RunInv(s.runs[k]);
  }

  /** Once accepted, a response id is never accepted again: in every later state, terminal or
      not, sending it again changes nothing, and it is answered as a replay exactly when it
      names the same interaction. */
  lemma ResponseAcceptedOnce(s: State, more: seq<Op>, k: RunKey, q: ResumeRequest, again: ResumeRequest)
    requires Reachable(s) && Resume(s, k, q).1.Resumed?
    requires Continues(Resume(s, k, q).0, more, k)
    requires again.response == q.response
    ensures var later := Execute(Resume(s, k, q).0, more);
            && Resume(later, k, again).0 == later
            && k in later.runs
            && (!Denies(later.runs[k], again.user) ==>
                  (Resume(later, k, again).1.Replayed? <==> again.interaction == q.interaction))
  {
    hide RunInv;
    var accepted := Resume(s, k, q).0;
    var _, _ := Later(accepted, more, k);
    assert accepted.runs[k].responses[q.response] == q.interaction;
  }

  // ----- what an accepted call leaves behind, in every later state

  /** A committed outcome is the outcome for good, and nothing is appended after it. */
  lemma CommitIsFinal(s: State, k: RunKey, h: Handle, target: Status, o: Outcome, more: seq<Op>)
    requires Transition(s, k, h, target, o).1.Committed?
    requires Continues(Transition(s, k, h, target, o).0, more, k)
    ensures var later := Execute(Transition(s, k, h, target, o).0, more);
            && k in later.runs && target.Terminal()
            && later.runs[k].status == target && later.runs[k].outcome == o
            && later.runs[k].owner == h.owner && later.runs[k].fence == h.fence
            && later.runs[k].history == s.runs[k].history
  {
    hide Execute, Move;
    TerminalIsAbsorbing(Transition(s, k, h, target, o).0, more, k);
  }

  /** A cancellation keeps any result, ends the run under a new token and, for a stream, ends the
      log with the error and the marker under that token. */
  lemma CancelIsFinal(s: State, k: RunKey, q: CancelRequest, more: seq<Op>)
    requires Cancel(s, k, q).1.Cancelling? && Continues(Cancel(s, k, q).0, more, k)
    ensures var r, later := s.runs[k], Execute(Cancel(s, k, q).0, more);
            var token := Some(r.fence + 1);
            && k in later.runs && later.runs[k].status == Cancelled
            && later.runs[k].fence == r.fence + 1
            && later.runs[k].outcome == q.error.(result := r.outcome.result)
            && later.runs[k].history
               == r.history + if r.kind == Stream then [Event(q.errorEvent, token), Event(q.doneEvent, token)] else []
  {
    hide Execute, Move, CancelRun;
    CancelEffect(s.runs[k], q);
    TerminalIsAbsorbing(Cancel(s, k, q).0, more, k);
  }

  lemma CancelEffect(r: Run, q: CancelRequest)
    ensures var r', token := CancelRun(r, q.error, q.errorEvent, q.doneEvent), Some(r.fence + 1);
            && r'.status == Cancelled && r'.fence == r.fence + 1
            && r'.outcome == q.error.(result := r.outcome.result)
            && r'.history
               == r.history + if r.kind == Stream then [Event(q.errorEvent, token), Event(q.doneEvent, token)] else []
  {
  }

  /** An appended event stays at its id under its writer's token, and its key makes every later
      append of the same writer a no-op that answers with that id. */
  lemma AppendIsDurable(s: State, k: RunKey, h: Handle, p: Payload, key: Option<EventKey>, more: seq<Op>,
                        again: Payload)
    requires Append(s, k, h, p, key).1.Appended? && Continues(Append(s, k, h, p, key).0, more, k)
    ensures var id, later := Append(s, k, h, p, key).1.id, Execute(Append(s, k, h, p, key).0, more);
            && k in later.runs && 1 <= id <= |later.runs[k].history|
            && later.runs[k].history[id - 1] == Event(p, Some(h.fence))
            && (key.Some? && !key.value.InteractionKey? && Holds(later.runs[k], h)
                && !later.runs[k].status.Terminal() && !(later.runs[k].status == WaitingForInput && again.isDone)
                ==> Append(later, k, h, again, key) == (later, Duplicate(id)))
  {
    hide Execute, AppendTo, RunInv, Reachable;
    var after := Append(s, k, h, p, key).0;
    AppendEffect(s.runs[k], h.fence, p, key);
    var r, later := Later(after, more, k);
    LogLength(r);
    assert r.history <= later.history;
  }

  lemma AppendEffect(r: Run, fence: nat, p: Payload, key: Option<EventKey>)
    ensures var r' := AppendTo(r, fence, p, key);
            && r'.lastEventId == r.lastEventId + 1 && r'.history == r.history + [Event(p, Some(fence))]
            && (key.Some? ==> key.value in r'.dedupe && r'.dedupe[key.value] == r.lastEventId + 1)
  {
  }

  lemma LogLength(r: Run)
    requires RunInv(r)
    ensures |r.history| == r.lastEventId
  {
  }

  /** An accepted pause leaves its event in the log for good. As long as the run waits under the
      same handle, it waits for that interaction, and asking for it again is a no-op that answers
      with the id of that event. */
  lemma PauseIsDurable(s: State, k: RunKey, h: Handle, i: Interaction, p: Payload, more: seq<Op>, again: Payload)
    requires Pause(s, k, h, i, p).1.PausedAt? && Continues(Pause(s, k, h, i, p).0, more, k)
    ensures var (after, reply) := Pause(s, k, h, i, p);
            var later := Execute(after, more);
            && k in later.runs && 1 <= reply.id <= |later.runs[k].history|
            && later.runs[k].history[reply.id - 1] == Event(p, None)
            && (later.runs[k].status == WaitingForInput && Holds(later.runs[k], h)
                ==> Pause(later, k, h, i, again) == (later, AlreadyPaused(reply.id)))
  {
    hide Execute, PauseRun, RunInv, Reachable, Move;
    var after := Pause(s, k, h, i, p).0;
    PauseEffect(s.runs[k], i, p);
    var r, later := Later(after, more, k);
    LogLength(r);
    assert r.history <= later.history;
  }

  lemma PauseEffect(r: Run, i: Interaction, p: Payload)
    ensures var r' := PauseRun(r, i, p);
            && r'.lastEventId == r.lastEventId + 1 && r'.history == r.history + [Event(p, None)]
            && InteractionKey(i) in r'.dedupe && r'.dedupe[InteractionKey(i)] == r.lastEventId + 1
            && r'.status == WaitingForInput && r'.interaction == Some(i) && r'.owner == r.owner && r'.fence == r.fence
  {
  }

  /** The request that started a run is attached to it in every later state, unless its lease has
      expired; then it takes the run over. It never starts a second one and is never refused. */
  lemma StartIsIdempotent(s: State, k: RunKey, q: StartRequest, more: seq<Op>)
    requires Start(s, k, q).1.Created? || Start(s, k, q).1.TookOver?
    requires Continues(Start(s, k, q).0, more, k)
    ensures var later := Execute(Start(s, k, q).0, more);
            && k in later.runs
            && var r := later.runs[k];
               if r.status.Pending() && r.leaseUntil <= later.now
               then Start(later, k, q).1 == TookOver(r.fence + 1)
               else Start(later, k, q) == (later, Attached(r.fence))
  {
    hide Execute, RunInv, Reachable, Move, Bump, LiveScores;
    var _, _ := Later(Start(s, k, q).0, more, k);
  }
}
