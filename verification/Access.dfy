/** Who may do what: when each script accepts, stated on the stored fields alone, and what an
    accepted call leaves in the run. */
module Access {
  import opened RunTypes
  import opened RedisScripts

  /** The script does what it was asked to do. */
  predicate Accepts(s: State, op: Op) {
    match op
    case Tick(_) => true
    case Expire(k) => k in s.runs && k !in Apply(s, op).runs
    case DoStart(k, q) => Start(s, k, q).1.Created? || Start(s, k, q).1.TookOver?
    case DoAppend(k, h, p, key) => Append(s, k, h, p, key).1.Appended?
    case DoAcquire(k, h, limit, ms) => Acquire(s, k, h, limit, ms).1.Acquired?
    case DoHeartbeat(k, h, ms) => Heartbeat(s, k, h, ms).1
    case DoRelease(k, h) => Release(s, k, h).1
    case DoTransition(k, h, target, o) => Transition(s, k, h, target, o).1.Committed?
    case DoCancel(k, q) => Cancel(s, k, q).1.Cancelling?
    case DoSetRunId(k, h, id) => SetRunId(s, k, h, id).1.Written?
    case DoMarkFailed(k, h, c, m, http) => MarkStreamFailed(s, k, h, c, m, http).1.Written?
    case DoPause(k, h, i, p) => Pause(s, k, h, i, p).1.PausedAt?
    case DoResume(k, q) => Resume(s, k, q).1.Resumed?
  }

  /** The caller is the owner and presents the current token. */
  predicate Owner(s: State, k: RunKey, h: Handle) {
    k in s.runs && s.runs[k].owner == h.owner && s.runs[k].fence == h.fence
  }

  /** The run is anonymous or the caller's. */
  predicate Ours(r: Run, user: Option<UserId>) {
    r.user == None || r.user == user
  }

  predicate Ended(r: Run) {
    r.status in {Completed, Failed, Cancelled, TimedOut}
  }

  /** How many runs hold a lease that has not expired. */
  function Live(z: map<RunKey, nat>, now: nat): nat {
    |set k | k in z && now < z[k]|
  }

  /** What the stored fields must be for that. */
  predicate May(s: State, op: Op) {
    match op
    case Tick(_) => true
    case Expire(k) => k in s.runs && Ended(s.runs[k])
    case DoStart(k, q) =>
      if k !in s.runs then Live(s.active, s.now) < q.limit
      else
        var r := s.runs[k];
        && Ours(r, q.user) && r.fingerprint == q.fingerprint && r.kind == q.kind
        && r.status in {Queued, Running} && r.leaseUntil <= s.now
    case DoAppend(k, h, p, key) =>
      && Owner(s, k, h) && !Ended(s.runs[k])
      && !(s.runs[k].status == WaitingForInput && p.isDone)
      && (key.Some? ==> key.value !in s.runs[k].dedupe)
    case DoAcquire(k, h, limit, _) =>
      Owner(s, k, h) && s.runs[k].status == Queued && Live(s.running, s.now) < limit
    case DoHeartbeat(k, h, _) => Owner(s, k, h) && s.runs[k].status in {Queued, Running}
    case DoRelease(k, h) => Owner(s, k, h) && s.runs[k].status in {Queued, Running, WaitingForInput}
    case DoTransition(k, h, target, _) =>
      Owner(s, k, h) && !Ended(s.runs[k]) && target in {Completed, Failed, Cancelled, TimedOut}
    case DoCancel(k, q) => k in s.runs && !Ended(s.runs[k]) && Ours(s.runs[k], q.user)
    case DoSetRunId(k, h, _) => Owner(s, k, h)
    case DoMarkFailed(k, h, _, _, _) => Owner(s, k, h) && !Ended(s.runs[k])
    case DoPause(k, h, _, _) => Owner(s, k, h) && s.runs[k].status == Running
    case DoResume(k, q) =>
      && k in s.runs && Ours(s.runs[k], q.user) && q.response !in s.runs[k].responses
      && s.runs[k].status == WaitingForInput && s.runs[k].interaction == Some(q.interaction)
  }

  lemma LiveIs(z: map<RunKey, nat>, now: nat)
    ensures Live(z, now) == |LiveScores(z, now)|
  {
    assert (set k | k in z && now < z[k]) == LiveScores(z, now);
  }

  /** Every script accepts exactly then, and one that does not accept changes nothing. */
  lemma AcceptsIff(s: State, op: Op)
    ensures Accepts(s, op) <==> May(s, op)
    ensures !Accepts(s, op) ==> Apply(s, op) == s
  {
    hide TakeOver, NewRun, AppendTo, BeginRunning, Finish, CancelRun, PauseRun, ResumeRun, Move, Bump, LiveScores, Live;
    LiveIs(s.active, s.now);
    LiveIs(s.running, s.now);
  }

  /** A stranger to a run that has a user is refused by every call that presents one. */
  lemma StrangerIsRefused(s: State, k: RunKey, u: UserId, start: StartRequest, cancel: CancelRequest,
                          resume: ResumeRequest)
    requires k in s.runs && s.runs[k].user == Some(u)
    ensures start.user != Some(u) ==> Start(s, k, start) == (s, Denied)
    ensures cancel.user != Some(u) ==> Cancel(s, k, cancel) == (s, CancelDenied)
    ensures resume.user != Some(u) ==> Resume(s, k, resume) == (s, ResumeDenied)
  {
    hide TakeOver, NewRun, CancelRun, ResumeRun, Move, Bump, LiveScores;
  }

  // ----- which refusal

  /** Every refusal names its reason, and the reasons are looked at in this order. */
  lemma StartReplies(s: State, k: RunKey, q: StartRequest)
    ensures var reply := Start(s, k, q).1;
            && (reply.Denied? <==> k in s.runs && !Ours(s.runs[k], q.user))
            && (reply.Conflict? <==>
                  && k in s.runs && Ours(s.runs[k], q.user)
                  && (s.runs[k].fingerprint != q.fingerprint || s.runs[k].kind != q.kind))
            && (reply.Overloaded? <==> k !in s.runs && Live(s.active, s.now) >= q.limit)
            && (reply.Created? ==> reply.fence == 1)
            && (reply.Attached? ==> k in s.runs && reply.fence == s.runs[k].fence)
            && (reply.TookOver? ==> k in s.runs && reply.fence == s.runs[k].fence + 1)
  {
    hide TakeOver, NewRun, Move, Bump, LiveScores, Live;
    LiveIs(s.active, s.now);
  }

  lemma AppendReplies(s: State, k: RunKey, h: Handle, p: Payload, key: Option<EventKey>)
    ensures var reply := Append(s, k, h, p, key).1;
            && (reply.NoRun? <==> k !in s.runs)
            && (reply.Fenced? <==> k in s.runs && !Owner(s, k, h))
            && (reply.AlreadyTerminal? <==> Owner(s, k, h) && Ended(s.runs[k]))
            && (reply.NotWhileWaiting? <==> Owner(s, k, h) && s.runs[k].status == WaitingForInput && p.isDone)
            && (reply.Duplicate? ==>
                  key.Some? && key.value in s.runs[k].dedupe && reply.id == s.runs[k].dedupe[key.value])
            && (reply.Appended? ==> reply.id == s.runs[k].lastEventId + 1)
  {
    hide AppendTo;
  }

  lemma OwnerReplies(s: State, k: RunKey, h: Handle, limit: nat, ms: nat, target: Status, o: Outcome,
                     id: Token, code: Token, http: nat)
    ensures var reply := Acquire(s, k, h, limit, ms).1;
            && (reply.AcquireMissing? <==> k !in s.runs)
            && (reply.AcquireFenced? <==> k in s.runs && !Owner(s, k, h))
            && (reply.NotQueued? <==> Owner(s, k, h) && s.runs[k].status != Queued)
    ensures var reply := Transition(s, k, h, target, o).1;
            && (reply.TransitionMissing? <==> k !in s.runs)
            && (reply.TransitionFenced? <==> k in s.runs && !Owner(s, k, h))
            && (reply.SameStatus? <==> Owner(s, k, h) && s.runs[k].status == target)
            && (reply.AfterTerminal? <==> Owner(s, k, h) && s.runs[k].status != target && Ended(s.runs[k]))
    ensures var reply := SetRunId(s, k, h, id).1;
            (reply.WriteMissing? <==> k !in s.runs) && (reply.WriteFenced? <==> k in s.runs && !Owner(s, k, h))
    ensures var reply := MarkStreamFailed(s, k, h, code, id, http).1;
            && (reply.WriteMissing? <==> k !in s.runs) && (reply.WriteFenced? <==> k in s.runs && !Owner(s, k, h))
            && (reply.WriteTerminal? <==> Owner(s, k, h) && Ended(s.runs[k]))
  {
    hide BeginRunning, Finish, Move, LiveScores;
  }

  lemma PauseReplies(s: State, k: RunKey, h: Handle, i: Interaction, p: Payload)
    ensures var reply := Pause(s, k, h, i, p).1;
            && (reply.PauseMissing? <==> k !in s.runs)
            && (reply.PauseFenced? <==> k in s.runs && !Owner(s, k, h))
            && (reply.NotRunning? <==> Owner(s, k, h) && s.runs[k].status !in {Running, WaitingForInput})
            && (reply.OtherInteraction? <==>
                  Owner(s, k, h) && s.runs[k].status == WaitingForInput && s.runs[k].interaction != Some(i))
            && (reply.AlreadyPaused? <==>
                  Owner(s, k, h) && s.runs[k].status == WaitingForInput && s.runs[k].interaction == Some(i))
  {
    hide PauseRun, Move;
  }

  lemma ResumeReplies(s: State, k: RunKey, q: ResumeRequest)
    ensures var reply := Resume(s, k, q).1;
            && (reply.ResumeMissing? <==> k !in s.runs)
            && (reply.ResumeDenied? <==> k in s.runs && !Ours(s.runs[k], q.user))
            && (k in s.runs && Ours(s.runs[k], q.user) && q.response in s.runs[k].responses ==>
                  reply == if s.runs[k].responses[q.response] == q.interaction then Replayed(s.runs[k].fence)
                           else ResponseReused)
            && (k in s.runs && Ours(s.runs[k], q.user) && q.response !in s.runs[k].responses ==>
                  && (reply.NotWaiting? <==> s.runs[k].status != WaitingForInput)
                  && (reply.Resumed? ==> reply.fence == s.runs[k].fence + 1))
  {
    hide ResumeRun, Move;
  }

  lemma CancelReplies(s: State, k: RunKey, q: CancelRequest)
    ensures var reply := Cancel(s, k, q).1;
            && (reply.CancelMissing? <==> k !in s.runs)
            && (reply.CancelDenied? <==> k in s.runs && !Ours(s.runs[k], q.user))
            && (reply.WasTerminal? <==> k in s.runs && Ours(s.runs[k], q.user) && Ended(s.runs[k]))
            && (reply.WasTerminal? ==> reply.fence == s.runs[k].fence)
            && (reply.Cancelling? ==> reply.fence == s.runs[k].fence + 1)
  {
    hide CancelRun, Move;
  }

  // ----- what an accepted call leaves

  /** A created run is blank. */
  lemma CreatedIsBlank(s: State, k: RunKey, q: StartRequest)
    requires Start(s, k, q).1.Created?
    ensures var r := Start(s, k, q).0.runs[k];
            && r.fingerprint == q.fingerprint && r.kind == q.kind && r.user == q.user && r.bufferSize == q.bufferSize
            && r.owner == q.instance && r.fence == 1 && r.status == Queued && r.leaseUntil == s.now + q.leaseMs
            && r.runId == None && r.outcome == Outcome(None, None, None, 500) && !r.streamFailed && !r.doneEmitted
            && r.interaction == None && r.lastEventId == 0 && r.entries == [] && r.history == []
            && r.dedupe == map[] && r.responses == map[]
  {
    hide Move, Bump, LiveScores;
  }

  /** A takeover loses nothing of the run: log, keys, responses, result and `run_id` stay. It
      requeues the run for its new owner and clears its error and the memory of a marker. */
  lemma TakeoverKeepsProgress(s: State, k: RunKey, q: StartRequest)
    requires Start(s, k, q).1.TookOver?
    ensures k in s.runs
    ensures var r, r' := s.runs[k], Start(s, k, q).0.runs[k];
            && r'.history == r.history && r'.entries == r.entries && r'.lastEventId == r.lastEventId
            && r'.dedupe == r.dedupe && r'.responses == r.responses && r'.interaction == r.interaction
            && r'.runId == r.runId && r'.streamFailed == r.streamFailed && r'.outcome.result == r.outcome.result
            && r'.outcome.errorCode == None && r'.outcome.error == None && r'.outcome.httpStatus == 500
            && r'.owner == q.instance && r'.fence == r.fence + 1 && r'.status == Queued && !r'.doneEmitted
            && r'.leaseUntil == s.now + q.leaseMs
  {
    hide Move, LiveScores;
  }

  /** An answer loses nothing either: the next execution goes on with the same log. */
  lemma ResumeKeepsProgress(s: State, k: RunKey, q: ResumeRequest)
    requires Resume(s, k, q).1.Resumed?
    ensures k in s.runs
    ensures var r, r' := s.runs[k], Resume(s, k, q).0.runs[k];
            && r'.history == r.history && r'.entries == r.entries && r'.lastEventId == r.lastEventId
            && r'.dedupe == r.dedupe && r'.responses == r.responses[q.response := q.interaction]
            && r'.runId == r.runId && r'.streamFailed == r.streamFailed && r'.outcome.result == r.outcome.result
            && r'.outcome.errorCode == None && r'.outcome.error == None
            && r'.outcome.httpStatus == r.outcome.httpStatus
            && r'.owner == q.instance && r'.fence == r.fence + 1 && r'.status == Queued && !r'.doneEmitted
            && r'.interaction == None && r'.leaseUntil == s.now + q.leaseMs
  {
    hide Move;
  }

  /** A failed stream is remembered with its error, and nothing else of the run changes. */
  lemma FailureIsRecorded(s: State, k: RunKey, h: Handle, code: Token, message: Token, http: nat)
    requires MarkStreamFailed(s, k, h, code, message, http).1.Written?
    ensures k in s.runs
    ensures var r, r' := s.runs[k], MarkStreamFailed(s, k, h, code, message, http).0.runs[k];
            && r'.streamFailed && r'.outcome == Outcome(r.outcome.result, Some(code), Some(message), http)
            && r' == r.(streamFailed := r'.streamFailed, outcome := r'.outcome)
  {
  }
}
