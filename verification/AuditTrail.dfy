/** The audit outbox tells the whole story: the lifecycle of every run can be read back from it. */
module AuditTrail {
  import opened RunTypes
  import opened RedisScripts

  /** Entries that report a change of status. */
  predicate Reports(a: Audit) {
    !a.kind.RunIdAssigned? && !a.kind.RunStreamFailed? && !a.kind.StreamEvent?
  }

  /** The reports on run `k` since it was last accepted. */
  function Trail(outbox: seq<Audit>, k: RunKey): seq<Audit> {
    if outbox == [] then []
    else Extended(Trail(outbox[..|outbox| - 1], k), outbox[|outbox| - 1], k)
  }

  function Extended(trail: seq<Audit>, a: Audit, k: RunKey): seq<Audit> {
    if a.key != k || !Reports(a) then trail
    else if a.kind == RunAccepted then [a]
    else trail + [a]
  }

  /** Which event type reports a lifecycle entry; the first one is the acceptance. */
  predicate Fits(kind: AuditKind, entry: LifecycleEntry, first: bool) {
    if first then kind == RunAccepted && entry == StatusChange(Queued)
    else
      match entry
      case LeaseTakenOver(_) => kind == RunLeaseTakenOver
      case StatusChange(Queued) => kind == RunInputAccepted
      case StatusChange(Running) => kind == RunStarted
      case StatusChange(WaitingForInput) => kind == RunWaitingForInput
      case StatusChange(Cancelled) => kind == RunCancelled || kind == RunFinished
      case StatusChange(_) => kind == RunFinished
  }

  /** The trail has one report per lifecycle entry, of the right type and with its status, and the
      last one names the current owner and token. */
  predicate Told(r: Run, trail: seq<Audit>) {
    && |trail| == |r.lifecycle| > 0
    && (forall i :: 0 <= i < |trail| ==>
          trail[i].status == r.lifecycle[i].status && Fits(trail[i].kind, r.lifecycle[i], i == 0))
    && trail[|trail| - 1].owner == r.owner && trail[|trail| - 1].fence == r.fence
  }

  predicate RowTold(s: State, k: RunKey) {
    k in s.runs ==> Told(s.runs[k], Trail(s.outbox, k))
  }

  ghost predicate AuditInv(s: State) {
    forall k :: RowTold(s, k)
  }

  lemma TrailMore(outbox: seq<Audit>, a: Audit, k: RunKey)
    ensures Trail(outbox + [a], k) == Extended(Trail(outbox, k), a, k)
  {
    hide Extended;
    assert (outbox + [a])[..|outbox|] == outbox;
  }

  lemma {:induction false} TrailOfOthers(outbox: seq<Audit>, news: seq<Audit>, k: RunKey)
    requires forall a :: a in news ==> a.key != k || !Reports(a)
    ensures Trail(outbox + news, k) == Trail(outbox, k)
  {
    if news == [] {
      assert outbox + news == outbox;
    } else {
      var front, a := news[..|news| - 1], news[|news| - 1];
      TrailOfOthers(outbox, front, k);
      TrailMore(outbox + front, a, k);
      assert outbox + news == outbox + front + [a];
    }
  }

  // ----- what a step writes

  /** The run of the step's own key: untouched in what is told, or reported by the first of the
      new entries. */
  ghost predicate Writes(s: State, s': State, k: RunKey, news: seq<Audit>) {
    && s'.outbox == s.outbox + news
    && (forall a :: a in news ==> a.key == k)
    && (forall j :: j != k ==> (j in s'.runs ==> j in s.runs && s'.runs[j] == s.runs[j]))
    && (k in s'.runs ==> Silent(s, s', k, news) || Reported(s, s', k, news))
  }

  predicate Silent(s: State, s': State, k: RunKey, news: seq<Audit>)
    requires k in s'.runs
  {
    && k in s.runs && s'.runs[k].lifecycle == s.runs[k].lifecycle
    && s'.runs[k].owner == s.runs[k].owner && s'.runs[k].fence == s.runs[k].fence
    && (forall a :: a in news ==> !Reports(a))
  }

  predicate Reported(s: State, s': State, k: RunKey, news: seq<Audit>)
    requires k in s'.runs
  {
    && news != [] && Reports(news[0]) && (forall i :: 1 <= i < |news| ==> !Reports(news[i]))
    && news[0].owner == s'.runs[k].owner && news[0].fence == s'.runs[k].fence
    && (news[0].kind == RunAccepted <==> k !in s.runs)
    && |s'.runs[k].lifecycle| > 0 && s'.runs[k].lifecycle[|s'.runs[k].lifecycle| - 1].status == news[0].status
    && Fits(news[0].kind, s'.runs[k].lifecycle[|s'.runs[k].lifecycle| - 1], k !in s.runs)
    && s'.runs[k].lifecycle[..|s'.runs[k].lifecycle| - 1] == if k in s.runs then s.runs[k].lifecycle else []
  }

  lemma WrittenIsTold(s: State, s': State, k: RunKey, news: seq<Audit>, j: RunKey)
    requires Writes(s, s', k, news) && RowTold(s, j)
    ensures RowTold(s', j)
  {
    hide Trail, Extended;
    if j != k || (k in s'.runs && Silent(s, s', k, news)) {
      TrailOfOthers(s.outbox, news, j);
    } else if k in s'.runs {
      TrailReported(s.outbox, news, k);
      var r, trail := s'.runs[k], Trail(s.outbox, k);
      var before := r.lifecycle[..|r.lifecycle| - 1];
      assert r.lifecycle == before + [r.lifecycle[|r.lifecycle| - 1]];
    }
  }

  lemma TrailReported(outbox: seq<Audit>, news: seq<Audit>, k: RunKey)
    requires news != [] && news[0].key == k && Reports(news[0])
    requires forall i :: 1 <= i < |news| ==> !Reports(news[i])
    ensures Trail(outbox + news, k) == if news[0].kind == RunAccepted then [news[0]] else Trail(outbox, k) + [news[0]]
  {
    hide Trail;
    TrailMore(outbox, news[0], k);
    TrailOfOthers(outbox + [news[0]], news[1..], k);
    assert outbox + news == outbox + [news[0]] + news[1..];
  }

  // ----- the scripts

  predicate SameStory(r: Run, r': Run) {
    r'.lifecycle == r.lifecycle && r'.owner == r.owner && r'.fence == r.fence
  }

  /** A script that reports nothing about the status. */
  lemma Quiet(s: State, s': State, k: RunKey, news: seq<Audit>)
    requires s'.outbox == s.outbox + news && forall a :: a in news ==> a.key == k && !Reports(a)
    requires s'.runs == s.runs || (k in s.runs && k in s'.runs && s'.runs == s.runs[k := s'.runs[k]]
                                   && SameStory(s.runs[k], s'.runs[k]))
    ensures Writes(s, s', k, news)
  {
  }

  /** A script that changes the status, reports it, and perhaps logs a stream event behind it. */
  lemma Reporting(s: State, s': State, k: RunKey, a: Audit, rest: seq<Audit>, entry: LifecycleEntry)
    requires s'.outbox == s.outbox + [a] + rest && k in s'.runs && s'.runs == s.runs[k := s'.runs[k]]
    requires a.key == k && Reports(a) && forall b :: b in rest ==> b.key == k && !Reports(b)
    requires a.kind == RunAccepted <==> k !in s.runs
    requires Fits(a.kind, entry, k !in s.runs)
    requires a.status == entry.status && a.owner == s'.runs[k].owner && a.fence == s'.runs[k].fence
    requires s'.runs[k].lifecycle == (if k in s.runs then s.runs[k].lifecycle else []) + [entry]
    ensures Writes(s, s', k, [a] + rest)
  {
    var news := [a] + rest;
    assert s.outbox + [a] + rest == s.outbox + news;
    forall i | 1 <= i < |news| ensures !Reports(news[i]) { assert news[i] == rest[i - 1]; }
  }

  lemma StartWrites(s: State, k: RunKey, q: StartRequest) returns (news: seq<Audit>)
    ensures Writes(s, Start(s, k, q).0, k, news)
  {
    hide Move, Bump, Denies, LiveScores, Writes;
    var (s', reply) := Start(s, k, q);
    if reply.Created? || reply.TookOver? {
      var a := Audit(if reply.Created? then RunAccepted else RunLeaseTakenOver, k, Queued, q.instance, reply.fence);
      assert s'.outbox == s.outbox + [a] + [];
      Reporting(s, s', k, a, [], if reply.Created? then StatusChange(Queued) else LeaseTakenOver(Queued));
      news := [a] + [];
    } else {
      Quiet(s, s', k, []);
      news := [];
    }
  }

  lemma AppendWrites(s: State, k: RunKey, h: Handle, p: Payload, key: Option<EventKey>) returns (news: seq<Audit>)
    ensures Writes(s, Append(s, k, h, p, key).0, k, news)
  {
    hide AppendTo, Holds, Writes, Status.Terminal;
    var (s', reply) := Append(s, k, h, p, key);
    news := [];
    if reply.Appended? {
      AppendTellsNothing(s.runs[k], h.fence, p, key);
      if p.audited { news := [Audit(StreamEvent, k, s.runs[k].status, h.owner, h.fence)]; }
    }
    Quiet(s, s', k, news);
  }

  lemma AppendTellsNothing(r: Run, fence: nat, p: Payload, key: Option<EventKey>)
    ensures SameStory(r, AppendTo(r, fence, p, key))
  {
  }

  lemma PauseWrites(s: State, k: RunKey, h: Handle, i: Interaction, p: Payload) returns (news: seq<Audit>)
    ensures Writes(s, Pause(s, k, h, i, p).0, k, news)
  {
    hide PauseRun, Move, Writes;
    var (s', reply) := Pause(s, k, h, i, p);
    if reply.PausedAt? {
      var a := Audit(RunWaitingForInput, k, WaitingForInput, h.owner, h.fence);
      var rest := if p.audited then [Audit(StreamEvent, k, WaitingForInput, h.owner, h.fence)] else [];
      PauseTells(s.runs[k], i, p);
      assert s'.outbox == s.outbox + [a] + rest;
      Reporting(s, s', k, a, rest, StatusChange(WaitingForInput));
      news := [a] + rest;
    } else {
      Quiet(s, s', k, []);
      news := [];
    }
  }

  lemma PauseTells(r: Run, i: Interaction, p: Payload)
    ensures var r' := PauseRun(r, i, p);
            r'.lifecycle == r.lifecycle + [StatusChange(WaitingForInput)] && r'.owner == r.owner && r'.fence == r.fence
  {
  }

  lemma CancelWrites(s: State, k: RunKey, q: CancelRequest) returns (news: seq<Audit>)
    ensures Writes(s, Cancel(s, k, q).0, k, news)
  {
    hide CancelRun, Move, Denies, Writes;
    var (s', reply) := Cancel(s, k, q);
    if reply.Cancelling? {
      var a := Audit(RunCancelled, k, Cancelled, s.runs[k].owner, reply.fence);
      CancelTells(s.runs[k], q);
      assert s'.outbox == s.outbox + [a] + [];
      Reporting(s, s', k, a, [], StatusChange(Cancelled));
      news := [a] + [];
    } else {
      Quiet(s, s', k, []);
      news := [];
    }
  }

  lemma CancelTells(r: Run, q: CancelRequest)
    ensures var r' := CancelRun(r, q.error, q.errorEvent, q.doneEvent);
            r'.lifecycle == r.lifecycle + [StatusChange(Cancelled)] && r'.owner == r.owner && r'.fence == r.fence + 1
  {
  }

  lemma ResumeWrites(s: State, k: RunKey, q: ResumeRequest) returns (news: seq<Audit>)
    ensures Writes(s, Resume(s, k, q).0, k, news)
  {
    hide Move, Denies, Writes;
    var (s', reply) := Resume(s, k, q);
    if reply.Resumed? {
      var a := Audit(RunInputAccepted, k, Queued, q.instance, reply.fence);
      assert s'.outbox == s.outbox + [a] + [];
      Reporting(s, s', k, a, [], StatusChange(Queued));
      news := [a] + [];
    } else {
      Quiet(s, s', k, []);
      news := [];
    }
  }

  /** The two owner writes that change the status. */
  lemma OwnerReports(s: State, op: Op) returns (news: seq<Audit>)
    requires op.DoAcquire? || op.DoTransition?
    ensures Writes(s, Apply(s, op), op.k, news)
  {
    hide Move, LiveScores, Writes;
    var s' := Apply(s, op);
    if s' == s {
      Quiet(s, s', op.k, []);
      news := [];
    } else {
      var a := Audit(if op.DoAcquire? then RunStarted else RunFinished, op.k,
                     if op.DoAcquire? then Running else op.target, op.h.owner, op.h.fence);
      assert s'.outbox == s.outbox + [a] + [];
      Reporting(s, s', op.k, a, [], StatusChange(a.status));
      news := [a] + [];
    }
  }

  lemma OwnerQuiet(s: State, op: Op) returns (news: seq<Audit>)
    requires op.DoHeartbeat? || op.DoRelease? || op.DoSetRunId? || op.DoMarkFailed?
    ensures Writes(s, Apply(s, op), op.k, news)
  {
    hide Writes, Status.Terminal, Status.Pending, Start, Append, Acquire, Transition, Pause, Resume, Cancel;
    var s' := Apply(s, op);
    news := [];
    if s' != s && !op.DoHeartbeat? && !op.DoRelease? {
      var kind := if op.DoSetRunId? then RunIdAssigned else RunStreamFailed;
      news := [Audit(kind, op.k, s.runs[op.k].status, op.h.owner, op.h.fence)];
    }
    Quiet(s, s', op.k, news);
  }

  lemma ExpiryWrites(s: State, k: RunKey)
    ensures Writes(s, Apply(s, Expire(k)), k, [])
  {
    assert s.outbox + [] == s.outbox;
  }

  lemma StepWrites(s: State, op: Op) returns (news: seq<Audit>)
    requires !op.Tick?
    ensures Writes(s, Apply(s, op), op.k, news)
  {
    hide Writes, Start, Append, Acquire, Transition, Cancel, Pause, Resume;
    match op
    case DoStart(k, q) => news := StartWrites(s, k, q);
    case DoAppend(k, h, p, key) => news := AppendWrites(s, k, h, p, key);
    case DoPause(k, h, i, p) => news := PauseWrites(s, k, h, i, p);
    case DoCancel(k, q) => news := CancelWrites(s, k, q);
    case DoResume(k, q) => news := ResumeWrites(s, k, q);
    case Expire(k) => ExpiryWrites(s, k); news := [];
    case DoAcquire(_, _, _, _) => news := OwnerReports(s, op);
    case DoTransition(_, _, _, _) => news := OwnerReports(s, op);
    case _ => news := OwnerQuiet(s, op);
  }

  lemma AuditStep(s: State, op: Op)
    requires AuditInv(s)
    ensures AuditInv(Apply(s, op))
  {
    hide Writes, Told;
    if !op.Tick? {
      hide Apply;
      var news := StepWrites(s, op);
      forall j ensures RowTold(Apply(s, op), j) { WrittenIsTold(s, Apply(s, op), op.k, news, j); }
    } else {
      forall j ensures RowTold(Apply(s, op), j) { assert RowTold(s, j); }
    }
  }

  /** In every reachable state the outbox holds, for every retained run, one report per lifecycle
      entry since the run was accepted, in order and with the same statuses; the last one names
      the run's current status, owner and token. */
  lemma {:induction false} OutboxTellsLifecycle(ops: seq<Op>, k: RunKey)
    ensures AuditInv(Execute(EMPTY, ops))
    ensures var s := Execute(EMPTY, ops);
            k in s.runs ==> Told(s.runs[k], Trail(s.outbox, k))
  {
    hide Apply;
    if ops == [] {
    } else {
      OutboxTellsLifecycle(ops[..|ops| - 1], k);
      AuditStep(Execute(EMPTY, ops[..|ops| - 1]), ops[|ops| - 1]);
    }
    assert RowTold(Execute(EMPTY, ops), k);
  }

  // ----- stream events

  /** The audited stream events of run `k` in the outbox. */
  function StreamEvents(outbox: seq<Audit>, k: RunKey): seq<Audit> {
    if outbox == [] then []
    else
      var a := outbox[|outbox| - 1];
      StreamEvents(outbox[..|outbox| - 1], k) + if a.key == k && a.kind == StreamEvent then [a] else []
  }

  /** An event that is to be audited is accepted for run `k`, by an append or as the question of a pause. */
  predicate Audits(s: State, op: Op, k: RunKey) {
    match op
    case DoAppend(k', h, p, key) => k' == k && p.audited && Append(s, k, h, p, key).1.Appended?
    case DoPause(k', h, i, p) => k' == k && p.audited && Pause(s, k, h, i, p).1.PausedAt?
    case _ => false
  }

  lemma StreamEventsMore(outbox: seq<Audit>, a: Audit, k: RunKey)
    ensures StreamEvents(outbox + [a], k)
            == StreamEvents(outbox, k) + if a.key == k && a.kind == StreamEvent then [a] else []
  {
    assert (outbox + [a])[..|outbox|] == outbox;
  }

  /** A script other than an append or a pause writes at most one entry, and no stream event. */
  lemma NoStreamEvent(s: State, op: Op) returns (news: seq<Audit>)
    requires !op.DoAppend? && !op.DoPause?
    ensures Apply(s, op).outbox == s.outbox + news && |news| <= 1
    ensures |news| == 1 ==> news[0].kind != StreamEvent
  {
    hide TakeOver, NewRun, BeginRunning, Finish, CancelRun, ResumeRun, Move, Bump, Denies, LiveScores, Holds,
         Status.Terminal, Status.Pending, Append, Pause;
    news := Apply(s, op).outbox[|s.outbox|..];
    assert s.outbox + [] == s.outbox;
  }

  predicate IsStreamEvent(a: Audit, k: RunKey, h: Handle) {
    a.kind == StreamEvent && a.key == k && a.owner == h.owner && a.fence == h.fence
  }

  lemma AppendStream(s: State, k: RunKey, h: Handle, p: Payload, key: Option<EventKey>) returns (news: seq<Audit>)
    ensures Append(s, k, h, p, key).0.outbox == s.outbox + news && |news| <= 1
    ensures |news| == 1 <==> p.audited && Append(s, k, h, p, key).1.Appended?
    ensures |news| == 1 ==> IsStreamEvent(news[0], k, h)
  {
    hide AppendTo, Holds, Status.Terminal;
    news := Append(s, k, h, p, key).0.outbox[|s.outbox|..];
    assert s.outbox + [] == s.outbox;
  }

  lemma PauseStream(s: State, k: RunKey, h: Handle, i: Interaction, p: Payload) returns (news: seq<Audit>)
    ensures Pause(s, k, h, i, p).0.outbox == s.outbox + news && |news| <= 2
    ensures |news| >= 1 ==> news[0].kind != StreamEvent
    ensures |news| == 2 <==> p.audited && Pause(s, k, h, i, p).1.PausedAt?
    ensures |news| == 2 ==> IsStreamEvent(news[1], k, h)
  {
    hide PauseRun, Holds, Move;
    news := Pause(s, k, h, i, p).0.outbox[|s.outbox|..];
    assert s.outbox + [] == s.outbox;
  }

  lemma StreamEventsTwo(outbox: seq<Audit>, news: seq<Audit>, k: RunKey)
    requires |news| <= 2
    ensures StreamEvents(outbox + news, k) == StreamEvents(outbox, k) + StreamEvents(news, k)
  {
    hide StreamEvents;
    assert StreamEvents([], k) == [] by { NoStreamEvents(k); }
    if |news| == 0 {
      assert outbox + news == outbox && news == [];
    } else if |news| == 1 {
      assert news == [] + [news[0]] && outbox + news == outbox + [news[0]];
      StreamEventsMore(outbox, news[0], k);
      StreamEventsMore([], news[0], k);
    } else {
      assert news == [] + [news[0]] + [news[1]] && outbox + news == outbox + [news[0]] + [news[1]];
      StreamEventsMore(outbox, news[0], k);
      StreamEventsMore(outbox + [news[0]], news[1], k);
      StreamEventsMore([], news[0], k);
      StreamEventsMore([] + [news[0]], news[1], k);
    }
  }

  lemma NoStreamEvents(k: RunKey)
    ensures StreamEvents([], k) == []
  {
  }

  lemma StreamEventsOf(news: seq<Audit>, k: RunKey)
    requires |news| <= 2
    ensures |news| == 0 ==> StreamEvents(news, k) == []
    ensures |news| == 1 ==>
              StreamEvents(news, k) == if news[0].key == k && news[0].kind == StreamEvent then [news[0]] else []
    ensures |news| == 2 && news[0].kind != StreamEvent ==>
              StreamEvents(news, k) == if news[1].key == k && news[1].kind == StreamEvent then [news[1]] else []
  {
    hide StreamEvents;
    NoStreamEvents(k);
    if |news| == 1 {
      assert news == [] + [news[0]];
      StreamEventsMore([], news[0], k);
    } else if |news| == 2 {
      assert news == [] + [news[0]] + [news[1]];
      StreamEventsMore([], news[0], k);
      StreamEventsMore([] + [news[0]], news[1], k);
    }
  }

  /** One entry for each such event, under the writer's handle, and none for anything else. */
  lemma StreamEventStep(s: State, op: Op, k: RunKey)
    ensures var before, after := StreamEvents(s.outbox, k), StreamEvents(Apply(s, op).outbox, k);
            if Audits(s, op, k)
            then && |after| == |before| + 1 && after == before + [after[|before|]]
                 && after[|before|].owner == op.h.owner && after[|before|].fence == op.h.fence
            else after == before
  {
    hide StreamEvents, Start, Append, Acquire, Transition, Cancel, Pause, Resume;
    var news;
    if op.DoAppend? {
      news := AppendStream(s, op.k, op.h, op.payload, op.eventKey);
    } else if op.DoPause? {
      news := PauseStream(s, op.k, op.h, op.interaction, op.payload);
    } else {
      hide Apply;
      news := NoStreamEvent(s, op);
    }
    StreamEventsTwo(s.outbox, news, k);
    StreamEventsOf(news, k);
  }

  /** How many audited events were accepted for run `k` in the course of `ops`. */
  function AuditedSteps(ops: seq<Op>, k: RunKey): nat {
    if ops == [] then 0
    else
      var front := ops[..|ops| - 1];
      AuditedSteps(front, k) + if Audits(Execute(EMPTY, front), ops[|ops| - 1], k) then 1 else 0
  }

  /** The outbox holds exactly one stream event per accepted audited event. */
  lemma {:induction false} StreamEventsCounted(ops: seq<Op>, k: RunKey)
    ensures |StreamEvents(Execute(EMPTY, ops).outbox, k)| == AuditedSteps(ops, k)
  {
    hide Apply, Audits;
    if ops == [] {
    } else {
      StreamEventsCounted(ops[..|ops| - 1], k);
      StreamEventStep(Execute(EMPTY, ops[..|ops| - 1]), ops[|ops| - 1], k);
    }
  }
}
