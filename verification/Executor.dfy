/** `RedisRunRegistry._execute` as a program counter machine. Any number of executors, on any
    number of runs, interleave with every other script. Within one incarnation of a run, a
    terminal stream run always has a `[DONE]` under its final token in its log. */
module Executor {
  import opened RunTypes
  import opened RedisScripts
  import opened RunInvariants

  /** Where an executor is. The try body runs from `Producing` to `Commit`; an exception in it
      leads to `Handler`, whose error code selects the except clause. */
  datatype Pc =
    | Producing
    | Refresh
    | AppendDone
    | Recheck
    | Commit(target: Status)
    | Handler(target: Status, code: Token)
    | AppendError(target: Status, code: Token)
    | AppendErrorDone(target: Status)
    | CommitError(target: Status)
    | Finished
  {
    predicate InTry() { Producing? || Refresh? || AppendDone? || Recheck? || Commit? }

    /** Nothing but `_transition` is left to do. */
    predicate ReadyToCommit() { Recheck? || Commit? || CommitError? }
  }

  /** The local `RunHandle`; `localDone` is its own `terminal_event_emitted` flag. */
  datatype Proc = Proc(k: RunKey, kind: Kind, h: Handle, localDone: bool, pc: Pc)

  datatype System = System(reg: State, procs: map<nat, Proc>)

  const INITIAL: System := System(EMPTY, map[])

  const DONE: Payload := Payload(0, true, true)

  datatype Step =
    | Env(op: Op)
    | SpawnLoaded(pid: nat, k: RunKey, instance: Instance)
    | SpawnResumed(pid: nat, k: RunKey, instance: Instance, fence: nat)
    | ProducerAppends(pid: nat, payload: Payload, eventKey: Option<EventKey>)
    | ProducerReturns(pid: nat)
    | Raise(pid: nat, target: Status, code: Token)
    | Die(pid: nat)
    | Advance(pid: nat, outcome: Outcome, errorPayload: Payload)
    | ProducerInterrupted(pid: nat, payload: Payload, eventKey: Option<EventKey>, target: Status, code: Token)
    | Interrupted(pid: nat, outcome: Outcome, errorPayload: Payload, target: Status, code: Token)

  /** Steps of the rest of the system: any script but `_transition`, which only executors call.
      Keys of kind `terminal-done` are only used by executors, and keyed payloads of a producer
      are agent events. Expiry would end the incarnation. */
  predicate Allowed(step: Step) {
    match step
    case Env(op) =>
      && WellFormed(op) && !op.Expire? && !op.DoTransition?
      && !(op.DoAppend? && op.eventKey.Some? && op.eventKey.value.TerminalDone?)
    case ProducerAppends(_, p, key) => key.Some? ==> key.value.AheKey? && !p.isDone
    case Raise(_, target, _) => target.Terminal()
    case Advance(_, _, p) => !p.isDone
    case ProducerInterrupted(_, p, key, target, _) =>
      target.Terminal() && (key.Some? ==> key.value.AheKey? && !p.isDone)
    case Interrupted(_, _, p, target, _) => target.Terminal() && !p.isDone
    case _ => true
  }

  // ----- one atomic step of one executor

  predicate SameOwner(p: Proc, r: Run) {
    r.fence == p.h.fence && r.owner == p.h.owner && r.status != WaitingForInput
  }

  function Verdict(r: Run): Status {
    if r.streamFailed then Failed else Completed
  }

  function Put(sys: System, pid: nat, p: Proc): System {
    sys.(procs := sys.procs[pid := p])
  }

  /** `append_event(record, payload)`; the local flag is set when a `[DONE]` was accepted. */
  function AppendBy(sys: System, pid: nat, payload: Payload, key: Option<EventKey>): (System, AppendReply)
    requires pid in sys.procs
  {
    var p := sys.procs[pid];
    var (reg, reply) := Append(sys.reg, p.k, p.h, payload, key);
    var accepted := reply.Appended? || reply.Duplicate?;
    (System(reg, sys.procs[pid := p.(localDone := p.localDone || (accepted && payload.isDone))]), reply)
  }

  function GoTo(sys: System, pid: nat, pc: Pc): System
    requires pid in sys.procs
  {
    Put(sys, pid, sys.procs[pid].(pc := pc))
  }

  /** The next statement of the executor. */
  function Progress(sys: System, pid: nat, outcome: Outcome, errorPayload: Payload): System
    requires pid in sys.procs && sys.procs[pid].k in sys.reg.runs
  {
    var p := sys.procs[pid];
    var r := sys.reg.runs[p.k];
    match p.pc
    case Producing => sys
    case Refresh =>
      if !SameOwner(p, r) then GoTo(sys, pid, Finished)
      else if p.kind == Stream && !r.doneEmitted then GoTo(sys, pid, AppendDone)
      else GoTo(sys, pid, Commit(Verdict(r)))
    case AppendDone =>
      var (sys', reply) := AppendBy(sys, pid, DONE, Some(TerminalDone(p.h.fence)));
      if reply.Appended? || reply.Duplicate? then GoTo(sys', pid, Recheck)
      else GoTo(sys', pid, Handler(Failed, 0))
    case Recheck => GoTo(sys, pid, Commit(Verdict(r)))
    case Commit(target) =>
      var (reg, reply) := Transition(sys.reg, p.k, p.h, target, outcome);
      if reply.Committed? || reply.SameStatus? then GoTo(sys.(reg := reg), pid, Finished)
      else GoTo(sys.(reg := reg), pid, Handler(Failed, 0))
    case Handler(target, code) =>
      if !SameOwner(p, r) || (target == Cancelled && r.status.Terminal()) then GoTo(sys, pid, Finished)
      else if p.kind == Stream then GoTo(sys, pid, AppendError(target, code))
      else GoTo(sys, pid, CommitError(target))
    case AppendError(target, code) =>
      var (sys', reply) := AppendBy(sys, pid, errorPayload, Some(TerminalError(code)));
      if (reply.Appended? || reply.Duplicate?) && !p.localDone then GoTo(sys', pid, AppendErrorDone(target))
      else GoTo(sys', pid, CommitError(target))
    case AppendErrorDone(target) =>
      var (sys', reply) := AppendBy(sys, pid, DONE, Some(TerminalDone(p.h.fence)));
      if reply.NotWhileWaiting? then GoTo(sys', pid, Finished)
      else GoTo(sys', pid, CommitError(target))
    case CommitError(target) =>
      GoTo(sys.(reg := Transition(sys.reg, p.k, p.h, target, outcome).0), pid, Finished)
    case Finished => sys
  }

  /** The script took effect, but the executor never learned of it: an exception or a
      cancellation arrived instead of the reply. Outside the try body it ends the task. */
  function Unanswered(before: System, after: System, pid: nat, target: Status, code: Token): System
    requires pid in before.procs
  {
    var p := before.procs[pid];
    System(after.reg, before.procs[pid := p.(pc := if p.pc.InTry() then Handler(target, code) else Finished)])
  }

  function Next(sys: System, step: Step): System {
    match step
    case Env(op) => sys.(reg := Apply(sys.reg, op))
    case SpawnLoaded(pid, k, instance) =>
      // start(): the handle is loaded after the script, from whatever state it then finds
      if pid in sys.procs || k !in sys.reg.runs then sys
      else
        var r := sys.reg.runs[k];
        Put(sys, pid, Proc(k, r.kind, Handle(instance, r.fence), r.doneEmitted, Producing))
    case SpawnResumed(pid, k, instance, fence) =>
      // resume(): as above, but with the token the script granted
      if pid in sys.procs || k !in sys.reg.runs || fence > sys.reg.runs[k].fence then sys
      else
        var r := sys.reg.runs[k];
        Put(sys, pid, Proc(k, r.kind, Handle(instance, fence), r.doneEmitted, Producing))
    case ProducerAppends(pid, payload, key) =>
      if pid in sys.procs && sys.procs[pid].pc == Producing then AppendBy(sys, pid, payload, key).0 else sys
    case ProducerReturns(pid) =>
      if pid in sys.procs && sys.procs[pid].pc == Producing then GoTo(sys, pid, Refresh) else sys
    case Raise(pid, target, code) =>
      if pid in sys.procs && sys.procs[pid].pc.InTry() then GoTo(sys, pid, Handler(target, code)) else sys
    case Die(pid) =>
      if pid in sys.procs then GoTo(sys, pid, Finished) else sys
    case Advance(pid, outcome, errorPayload) =>
      if pid in sys.procs && sys.procs[pid].k in sys.reg.runs then Progress(sys, pid, outcome, errorPayload) else sys
    case ProducerInterrupted(pid, payload, key, target, code) =>
      if pid in sys.procs && sys.procs[pid].pc == Producing
      then Unanswered(sys, AppendBy(sys, pid, payload, key).0, pid, target, code) else sys
    case Interrupted(pid, outcome, errorPayload, target, code) =>
      if pid in sys.procs && sys.procs[pid].k in sys.reg.runs
      then Unanswered(sys, Progress(sys, pid, outcome, errorPayload), pid, target, code) else sys
  }

  function Trace(sys: System, steps: seq<Step>): System {
    if steps == [] then sys else Next(Trace(sys, steps[..|steps| - 1]), steps[|steps| - 1])
  }

  // ----- the invariant

  /** The claim, and what the dedupe map must remember for it. */
  ghost predicate DoneRecorded(r: Run) {
    && (r.kind == Stream && r.status.Terminal() ==> DoneIn(r.history, r.fence))
    && (forall f :: TerminalDone(f) in r.dedupe ==> DoneIn(r.history, f))
  }

  /** The executor may commit: its marker is in the log, or it can no longer write. */
  ghost predicate Licensed(p: Proc, r: Run) {
    DoneIn(r.history, p.h.fence) || p.h.fence < r.fence || r.owner != p.h.owner || r.status.Terminal()
  }

  ghost predicate ProcOk(p: Proc, r: Run) {
    && p.kind == r.kind
    && p.h.fence <= r.fence
    && (p.kind == Stream && p.localDone && p.h.fence == r.fence ==> DoneIn(r.history, r.fence))
    && (p.kind == Stream && p.pc.ReadyToCommit() ==> Licensed(p, r))
  }

  ghost predicate RunsOk(s: State) {
    StateInv(s) && forall k :: k in s.runs ==> DoneRecorded(s.runs[k])
  }

  ghost predicate SystemInv(sys: System) {
    && RunsOk(sys.reg)
    && (forall pid :: pid in sys.procs ==>
          sys.procs[pid].k in sys.reg.runs && ProcOk(sys.procs[pid], sys.reg.runs[sys.procs[pid].k]))
  }

  // ----- the rest of the system keeps it

  lemma RecordedLater(r: Run, r': Run)
    requires DoneRecorded(r) && RunInv(r) && Evolves(r, r')
    requires forall f :: TerminalDone(f) in r'.dedupe ==> TerminalDone(f) in r.dedupe || DoneIn(r'.history, f)
    requires r'.status.Terminal() && !r.status.Terminal() && r.kind == Stream ==> DoneIn(r'.history, r'.fence)
    ensures DoneRecorded(r')
  {
    hide RunInv, DoneIn;
    forall f | TerminalDone(f) in r'.dedupe ensures DoneIn(r'.history, f) {
      if TerminalDone(f) in r.dedupe { DoneInGrows(r.history, r'.history, f); }
    }
  }

  lemma RecordedFrozen(r: Run, r': Run)
    requires DoneRecorded(r) && Evolves(r, r') && r.status.Terminal()
    ensures DoneRecorded(r')
  {
    hide DoneIn;
  }

  lemma ProcLater(p: Proc, r: Run, r': Run)
    requires ProcOk(p, r) && Evolves(r, r')
    ensures ProcOk(p, r')
  {
    hide DoneIn;
    if DoneIn(r.history, p.h.fence) { DoneInGrows(r.history, r'.history, p.h.fence); }
  }

  ghost predicate QuietDelta(r: Run, r': Run) {
    && (forall f :: TerminalDone(f) in r'.dedupe ==> TerminalDone(f) in r.dedupe)
    && (r'.status.Terminal() ==> r.status.Terminal())
  }

  lemma AppendDelta(r: Run, fence: nat, p: Payload, key: Option<EventKey>)
    requires !(key.Some? && key.value.TerminalDone?)
    ensures QuietDelta(r, AppendTo(r, fence, p, key))
  {
  }

  lemma PauseDelta(r: Run, i: Interaction, p: Payload)
    ensures QuietDelta(r, PauseRun(r, i, p))
  {
  }

  lemma CancelDelta(s: State, op: Op, k: RunKey)
    requires op.DoCancel? && k in s.runs
    ensures k in Apply(s, op).runs
    ensures var r, r' := s.runs[k], Apply(s, op).runs[k];
            r' == r || r' == CancelRun(r, op.cancel.error, op.cancel.errorEvent, op.cancel.doneEvent)
  {
    hide CancelRun, Denies, Move;
  }

  /** No script but `_transition` and cancel ends a run, and none writes a `terminal-done` key. */
  lemma EnvDelta(s: State, op: Op, k: RunKey)
    requires Allowed(Env(op)) && k in s.runs
    ensures k in Apply(s, op).runs
    ensures var r, r' := s.runs[k], Apply(s, op).runs[k];
            || QuietDelta(r, r')
            || (op.DoCancel? && r' == CancelRun(r, op.cancel.error, op.cancel.errorEvent, op.cancel.doneEvent))
  {
    if op.DoCancel? {
      CancelDelta(s, op, k);
    } else {
      OtherDelta(s, op, k);
    }
  }

  lemma OtherDelta(s: State, op: Op, k: RunKey)
    requires Allowed(Env(op)) && k in s.runs && !op.DoCancel?
    ensures k in Apply(s, op).runs && QuietDelta(s.runs[k], Apply(s, op).runs[k])
  {
    if op.Tick? || op.k != k {
      ElsewhereDelta(s, op, k);
    } else if op.DoAppend? || op.DoPause? {
      hide LiveScores, Move, Bump, Denies, Holds, AppendTo, PauseRun, Start, Resume, Acquire, Transition;
      AppendDelta(s.runs[k], op.h.fence, op.payload, if op.DoAppend? then op.eventKey else None);
      if op.DoPause? { PauseDelta(s.runs[k], op.interaction, op.payload); }
    } else {
      FieldDelta(s, op);
    }
  }

  lemma ElsewhereDelta(s: State, op: Op, k: RunKey)
    requires k in s.runs && (op.Tick? || op.k != k)
    ensures k in Apply(s, op).runs && Apply(s, op).runs[k] == s.runs[k]
  {
    hide LiveScores, Move, Bump, Denies, Holds, AppendTo, PauseRun, TakeOver, NewRun, BeginRunning, Finish,
         CancelRun, ResumeRun, Status.Terminal, Status.Pending;
  }

  lemma FieldDelta(s: State, op: Op)
    requires Allowed(Env(op)) && !op.Tick? && !op.DoCancel? && !op.DoAppend? && !op.DoPause? && op.k in s.runs
    ensures op.k in Apply(s, op).runs
    ensures Apply(s, op).runs[op.k].dedupe == s.runs[op.k].dedupe
    ensures Apply(s, op).runs[op.k].status.Terminal() ==> s.runs[op.k].status.Terminal()
  {
    hide LiveScores, Move, Bump, Denies, Holds, AppendTo, PauseRun, CancelRun, Finish;
  }

  lemma CancelDedupe(r: Run, q: CancelRequest)
    ensures CancelRun(r, q.error, q.errorEvent, q.doneEvent).dedupe == r.dedupe
    ensures CancelRun(r, q.error, q.errorEvent, q.doneEvent).fence == r.fence + 1
  {
  }

  lemma EnvRuns(s: State, op: Op)
    requires RunsOk(s) && Allowed(Env(op))
    ensures RunsOk(Apply(s, op))
  {
    hide Apply, RunInv, Evolves, DoneRecorded, CancelRun;
    var s' := Apply(s, op);
    StepKeeps(s, op);
    forall k | k in s'.runs ensures DoneRecorded(s'.runs[k]) {
      if k in s.runs {
        EnvDelta(s, op, k);
        if !QuietDelta(s.runs[k], s'.runs[k]) && !s.runs[k].status.Terminal() {
          CancelKeeps(s.runs[k], op.cancel);
          CancelDedupe(s.runs[k], op.cancel);
        }
        if !s.runs[k].status.Terminal() {
          RecordedLater(s.runs[k], s'.runs[k]);
        } else {
          RecordedFrozen(s.runs[k], s'.runs[k]);
        }
      } else {
        Fresh(s, op, k);
      }
    }
  }

  lemma Fresh(s: State, op: Op, k: RunKey)
    requires k !in s.runs && k in Apply(s, op).runs
    ensures DoneRecorded(Apply(s, op).runs[k])
  {
    hide Move, Bump, Denies;
  }

  // ----- so do the executors

  /** An executor's append: a `[DONE]` it was told is accepted is in the log under its token. */
  lemma AppendRuns(s: State, k: RunKey, h: Handle, p: Payload, key: Option<EventKey>)
    requires RunsOk(s)
    requires key.Some? && key.value.TerminalDone? ==> p.isDone && key.value.fence == h.fence
    ensures RunsOk(Append(s, k, h, p, key).0) && Kept(s, Append(s, k, h, p, key).0)
    ensures var (s', reply) := Append(s, k, h, p, key);
            && (reply.Appended? && p.isDone ==> k in s'.runs && DoneIn(s'.runs[k].history, h.fence))
            && (reply.Duplicate? ==> key.Some?)
            && (reply.Duplicate? && key == Some(TerminalDone(h.fence)) ==>
                  k in s'.runs && DoneIn(s'.runs[k].history, h.fence))
            && (reply.Fenced? || reply.AlreadyTerminal? || reply.NoRun? ==>
                  s' == s && (k in s.runs ==> !Holds(s.runs[k], h) || s.runs[k].status.Terminal()))
  {
    hide RunInv, Evolves, DoneRecorded, DoneIn, AppendTo;
    var (s', reply) := Append(s, k, h, p, key);
    AppendStep(s, k, h, p, key);
    if reply.Appended? {
      AppendedRun(s, k, h, p, key);
      RecordedLater(s.runs[k], s'.runs[k]);
    } else if reply.Duplicate? && key == Some(TerminalDone(h.fence)) {
      assert DoneIn(s.runs[k].history, h.fence) by { assert DoneRecorded(s.runs[k]); KeyRecorded(s.runs[k], h.fence); }
    }
  }

  lemma KeyRecorded(r: Run, fence: nat)
    requires DoneRecorded(r) && TerminalDone(fence) in r.dedupe
    ensures DoneIn(r.history, fence)
  {
  }

  lemma AppendedRun(s: State, k: RunKey, h: Handle, p: Payload, key: Option<EventKey>)
    requires Append(s, k, h, p, key).1.Appended?
    ensures var s' := Append(s, k, h, p, key).0;
            && k in s.runs && s'.runs == s.runs[k := s'.runs[k]]
            && s'.runs[k].status == s.runs[k].status
            && (p.isDone ==> DoneIn(s'.runs[k].history, h.fence))
            && (forall x :: x in s'.runs[k].dedupe ==> x in s.runs[k].dedupe || key == Some(x))
  {
    hide Newest, Holds;
    var log := Append(s, k, h, p, key).0.runs[k].history;
    assert log[|log| - 1] == Event(p, Some(h.fence));
    assert p.isDone ==> DoneWith(log[|log| - 1], h.fence);
  }

  /** `_transition` by an executor that may commit. */
  lemma CommitRuns(s: State, p: Proc, target: Status, o: Outcome)
    requires RunsOk(s) && p.k in s.runs && p.kind == s.runs[p.k].kind
    requires p.kind == Stream ==> Licensed(p, s.runs[p.k])
    ensures RunsOk(Transition(s, p.k, p.h, target, o).0) && Kept(s, Transition(s, p.k, p.h, target, o).0)
  {
    hide RunInv, Evolves, DoneRecorded, DoneIn;
    var (s', reply) := Transition(s, p.k, p.h, target, o);
    TransitionStep(s, p.k, p.h, target, o);
    if reply.Committed? {
      var r, r' := s.runs[p.k], s'.runs[p.k];
      assert r'.dedupe == r.dedupe && r'.history == r.history && r'.fence == r.fence == p.h.fence;
      RecordedLater(r, r');
    }
  }

  // ----- the whole system

  lemma OthersLater(sys: System, reg: State, pid: nat, p: Proc)
    requires SystemInv(sys) && RunsOk(reg) && Kept(sys.reg, reg) && sys.reg.runs.Keys <= reg.runs.Keys
    requires p.k in reg.runs && ProcOk(p, reg.runs[p.k])
    ensures SystemInv(System(reg, sys.procs[pid := p]))
  {
    hide RunsOk, ProcOk, Evolves, RunInv;
    forall q | q in sys.procs && q != pid
      ensures sys.procs[q].k in reg.runs && ProcOk(sys.procs[q], reg.runs[sys.procs[q].k])
    {
      ProcLater(sys.procs[q], sys.reg.runs[sys.procs[q].k], reg.runs[sys.procs[q].k]);
    }
  }

  /** A step that writes no shared state. */
  lemma LocalStep(sys: System, pid: nat, p: Proc)
    requires SystemInv(sys) && p.k in sys.reg.runs && ProcOk(p, sys.reg.runs[p.k])
    ensures SystemInv(Put(sys, pid, p))
  {
    hide RunsOk, ProcOk, RunInv;
  }

  lemma EnvStep(sys: System, op: Op)
    requires SystemInv(sys) && Allowed(Env(op))
    ensures SystemInv(Next(sys, Env(op)))
  {
    hide Apply, DoneRecorded, ProcOk, Evolves, RunInv;
    var reg := Apply(sys.reg, op);
    EnvRuns(sys.reg, op);
    StepKeeps(sys.reg, op);
    forall q | q in sys.procs
      ensures sys.procs[q].k in reg.runs && ProcOk(sys.procs[q], reg.runs[sys.procs[q].k])
    {
      EnvDelta(sys.reg, op, sys.procs[q].k);
      ProcLater(sys.procs[q], sys.reg.runs[sys.procs[q].k], reg.runs[sys.procs[q].k]);
    }
  }

  lemma KeysKept(s: State, k: RunKey, h: Handle, p: Payload, key: Option<EventKey>, target: Status, o: Outcome)
    ensures s.runs.Keys <= Append(s, k, h, p, key).0.runs.Keys
    ensures s.runs.Keys <= Transition(s, k, h, target, o).0.runs.Keys
  {
    hide AppendTo, Finish, Move;
  }

  /** The three places where an executor appends. */
  lemma AppendByKeeps(sys: System, pid: nat, payload: Payload, key: Option<EventKey>, pc: Pc)
    requires SystemInv(sys) && pid in sys.procs
    requires payload.isDone ==> key.None? || key.value == TerminalDone(sys.procs[pid].h.fence)
    requires key.Some? && key.value.TerminalDone? ==> payload.isDone
    requires var (sys', reply) := AppendBy(sys, pid, payload, key);
             pc.ReadyToCommit() ==>
               || reply.Fenced? || reply.AlreadyTerminal? || reply.NoRun?
               || ((reply.Appended? || reply.Duplicate?) && (payload.isDone || sys.procs[pid].localDone))
    ensures SystemInv(GoTo(AppendBy(sys, pid, payload, key).0, pid, pc))
  {
    hide Append, RunInv, Evolves, DoneIn, DoneRecorded, Kept;
    var p := sys.procs[pid];
    var (reg, reply) := Append(sys.reg, p.k, p.h, payload, key);
    AppendRuns(sys.reg, p.k, p.h, payload, key);
    KeysKept(sys.reg, p.k, p.h, payload, key, Failed, NO_OUTCOME);
    var r, r' := sys.reg.runs[p.k], reg.runs[p.k];
    assert Evolves(r, r') by { KeptAt(sys.reg, reg, p.k); }
    ProcLater(p, r, r');
    var p' := AppendBy(sys, pid, payload, key).0.procs[pid].(pc := pc);
    assert ProcOk(p', r');
    OthersLater(sys, reg, pid, p');
    assert GoTo(AppendBy(sys, pid, payload, key).0, pid, pc).procs == sys.procs[pid := p'];
  }

  lemma KeptAt(s: State, s': State, k: RunKey)
    requires Kept(s, s') && k in s.runs && k in s'.runs
    ensures Evolves(s.runs[k], s'.runs[k])
  {
    hide Evolves, RunInv;
  }

  lemma CommitByKeeps(sys: System, pid: nat, target: Status, o: Outcome, pc: Pc)
    requires SystemInv(sys) && pid in sys.procs && sys.procs[pid].pc.ReadyToCommit() && !pc.ReadyToCommit()
    ensures var p := sys.procs[pid];
            SystemInv(GoTo(sys.(reg := Transition(sys.reg, p.k, p.h, target, o).0), pid, pc))
  {
    hide Transition, RunInv, Evolves, DoneIn, DoneRecorded, Kept;
    var p := sys.procs[pid];
    var reg := Transition(sys.reg, p.k, p.h, target, o).0;
    CommitRuns(sys.reg, p, target, o);
    KeysKept(sys.reg, p.k, p.h, DONE, None, target, o);
    KeptAt(sys.reg, reg, p.k);
    ProcLater(p, sys.reg.runs[p.k], reg.runs[p.k]);
    OthersLater(sys, reg, pid, p.(pc := pc));
  }

  /** Between reading the state and committing, an executor only moves on. */
  lemma ReadStep(sys: System, pid: nat, pc: Pc)
    requires SystemInv(sys) && pid in sys.procs
    requires pc.ReadyToCommit() && sys.procs[pid].kind == Stream ==>
               || sys.procs[pid].pc.ReadyToCommit()
               || (sys.reg.runs[sys.procs[pid].k].doneEmitted
                   && sys.reg.runs[sys.procs[pid].k].fence == sys.procs[pid].h.fence)
    ensures SystemInv(GoTo(sys, pid, pc))
  {
    hide FencesOrdered, LogContiguous, LifecycleTracks, Alternates, Pauses, DoneRecorded, DoneIn;
    var p := sys.procs[pid];
    var r := sys.reg.runs[p.k];
    assert RunInv(r);
    assert ProcOk(p.(pc := pc), r);
    LocalStep(sys, pid, p.(pc := pc));
  }

  lemma ProgressKeeps(sys: System, pid: nat, outcome: Outcome, errorPayload: Payload)
    requires SystemInv(sys) && pid in sys.procs && sys.procs[pid].k in sys.reg.runs && !errorPayload.isDone
    ensures SystemInv(Progress(sys, pid, outcome, errorPayload))
  {
    hide SystemInv, Append, Transition;
    var p := sys.procs[pid];
    var next := Progress(sys, pid, outcome, errorPayload);
    match p.pc
    case Producing =>
    case Finished =>
    case Refresh => ReadStep(sys, pid, next.procs[pid].pc);
    case Recheck => ReadStep(sys, pid, next.procs[pid].pc);
    case Handler(_, _) => ReadStep(sys, pid, next.procs[pid].pc);
    case AppendDone => AppendByKeeps(sys, pid, DONE, Some(TerminalDone(p.h.fence)), next.procs[pid].pc);
    case AppendErrorDone(_) => AppendByKeeps(sys, pid, DONE, Some(TerminalDone(p.h.fence)), next.procs[pid].pc);
    case AppendError(_, code) =>
      ErrorIsNotDone(sys.reg, p, errorPayload, code);
      AppendByKeeps(sys, pid, errorPayload, Some(TerminalError(code)), next.procs[pid].pc);
    case Commit(target) => CommitByKeeps(sys, pid, target, outcome, next.procs[pid].pc);
    case CommitError(target) => CommitByKeeps(sys, pid, target, outcome, next.procs[pid].pc);
  }

  lemma ErrorIsNotDone(s: State, p: Proc, errorPayload: Payload, code: Token)
    requires !errorPayload.isDone
    ensures !Append(s, p.k, p.h, errorPayload, Some(TerminalError(code))).1.NotWhileWaiting?
  {
  }

  lemma SpawnKeeps(sys: System, step: Step)
    requires SystemInv(sys) && (step.SpawnLoaded? || step.SpawnResumed?)
    ensures SystemInv(Next(sys, step))
  {
    hide FencesOrdered, LogContiguous, LifecycleTracks, Alternates, Pauses, DoneRecorded, DoneIn;
    if step.k in sys.reg.runs {
      var r := sys.reg.runs[step.k];
      assert RunInv(r);
      var fence := if step.SpawnLoaded? then r.fence else step.fence;
      if fence <= r.fence {
        LocalStep(sys, step.pid, Proc(step.k, r.kind, Handle(step.instance, fence), r.doneEmitted, Producing));
      }
    }
  }

  lemma ProducerAppendKeeps(sys: System, pid: nat, payload: Payload, key: Option<EventKey>)
    requires SystemInv(sys) && Allowed(ProducerAppends(pid, payload, key))
    requires pid in sys.procs && sys.procs[pid].pc == Producing
    ensures SystemInv(AppendBy(sys, pid, payload, key).0)
  {
    hide SystemInv, Append;
    AppendByKeeps(sys, pid, payload, key, Producing);
    assert GoTo(AppendBy(sys, pid, payload, key).0, pid, Producing) == AppendBy(sys, pid, payload, key).0;
  }

  /** Only executor `pid` may have moved, and it is still the same one. */
  predicate SameTasks(before: System, after: System, pid: nat) {
    && pid in before.procs && pid in after.procs && after.procs == before.procs[pid := after.procs[pid]]
    && var p, p' := before.procs[pid], after.procs[pid];
       p'.k == p.k && p'.kind == p.kind && p'.h == p.h && (p.localDone ==> p'.localDone)
  }

  /** Forgetting the reply forgets only that a marker was accepted. */
  lemma UnansweredKeeps(before: System, after: System, pid: nat, target: Status, code: Token)
    requires SystemInv(after) && SameTasks(before, after, pid)
    ensures SystemInv(Unanswered(before, after, pid, target, code))
  {
    hide RunsOk, ProcOk;
    var p := before.procs[pid].(pc := if before.procs[pid].pc.InTry() then Handler(target, code) else Finished);
    ForgetfulProc(p, after.procs[pid], after.reg.runs[p.k]);
    LocalStep(after, pid, p);
    assert Unanswered(before, after, pid, target, code).procs == after.procs[pid := p];
  }

  lemma ForgetfulProc(p: Proc, p': Proc, r: Run)
    requires ProcOk(p', r) && p'.kind == p.kind && p'.h == p.h && (p.localDone ==> p'.localDone)
    requires !p.pc.ReadyToCommit()
    ensures ProcOk(p, r)
  {
  }

  lemma AppendByTasks(sys: System, pid: nat, payload: Payload, key: Option<EventKey>)
    requires pid in sys.procs
    ensures SameTasks(sys, AppendBy(sys, pid, payload, key).0, pid)
  {
    hide Append;
  }

  lemma GoToTasks(before: System, sys: System, pid: nat, pc: Pc)
    requires SameTasks(before, sys, pid)
    ensures SameTasks(before, GoTo(sys, pid, pc), pid)
  {
  }

  lemma ProgressTasks(sys: System, pid: nat, o: Outcome, e: Payload)
    requires pid in sys.procs && sys.procs[pid].k in sys.reg.runs
    ensures SameTasks(sys, Progress(sys, pid, o, e), pid)
  {
    hide AppendBy, Transition, SameOwner, Verdict, GoTo, SameTasks;
    var p := sys.procs[pid];
    var next := Progress(sys, pid, o, e);
    assert SameTasks(sys, sys, pid) by { TasksStay(sys, sys.reg, pid); }
    match p.pc
    case Producing =>
    case Finished =>
    case AppendDone => AppendThenGo(sys, pid, DONE, Some(TerminalDone(p.h.fence)));
    case AppendError(_, code) => AppendThenGo(sys, pid, e, Some(TerminalError(code)));
    case AppendErrorDone(_) => AppendThenGo(sys, pid, DONE, Some(TerminalDone(p.h.fence)));
    case Commit(target) => CommitThenGo(sys, Transition(sys.reg, p.k, p.h, target, o).0, pid);
    case CommitError(target) => CommitThenGo(sys, Transition(sys.reg, p.k, p.h, target, o).0, pid);
    case _ => CommitThenGo(sys, sys.reg, pid);
  }

  lemma CommitThenGo(sys: System, reg: State, pid: nat)
    requires pid in sys.procs
    ensures forall pc :: SameTasks(sys, GoTo(sys.(reg := reg), pid, pc), pid)
  {
    hide GoTo, SameTasks;
    forall pc ensures SameTasks(sys, GoTo(sys.(reg := reg), pid, pc), pid) {
      TasksStay(sys, reg, pid);
      GoToTasks(sys, sys.(reg := reg), pid, pc);
    }
  }

  lemma TasksStay(sys: System, reg: State, pid: nat)
    requires pid in sys.procs
    ensures SameTasks(sys, sys.(reg := reg), pid)
  {
    assert sys.procs == sys.procs[pid := sys.procs[pid]];
  }

  lemma AppendThenGo(sys: System, pid: nat, payload: Payload, key: Option<EventKey>)
    requires pid in sys.procs
    ensures pid in AppendBy(sys, pid, payload, key).0.procs
    ensures forall pc :: SameTasks(sys, GoTo(AppendBy(sys, pid, payload, key).0, pid, pc), pid)
  {
    hide AppendBy, GoTo;
    AppendByTasks(sys, pid, payload, key);
    forall pc ensures SameTasks(sys, GoTo(AppendBy(sys, pid, payload, key).0, pid, pc), pid) {
      GoToTasks(sys, AppendBy(sys, pid, payload, key).0, pid, pc);
    }
  }

  lemma NextKeeps(sys: System, step: Step)
    requires SystemInv(sys) && Allowed(step)
    ensures SystemInv(Next(sys, step))
  {
    hide SystemInv, AppendBy, Progress, GoTo, Put, Unanswered;
    match step
    case Env(op) => EnvStep(sys, op);
    case ProducerAppends(pid, payload, key) =>
      if pid in sys.procs && sys.procs[pid].pc == Producing { ProducerAppendKeeps(sys, pid, payload, key); }
    case ProducerReturns(pid) => if pid in sys.procs { ReadStep(sys, pid, Refresh); }
    case Raise(pid, target, code) => if pid in sys.procs { ReadStep(sys, pid, Handler(target, code)); }
    case Die(pid) => if pid in sys.procs { ReadStep(sys, pid, Finished); }
    case Advance(pid, outcome, errorPayload) =>
      if pid in sys.procs && sys.procs[pid].k in sys.reg.runs {
        ProgressKeeps(sys, pid, outcome, errorPayload);
      }
    case ProducerInterrupted(pid, payload, key, target, code) =>
      if pid in sys.procs && sys.procs[pid].pc == Producing {
        ProducerAppendKeeps(sys, pid, payload, key);
        AppendByTasks(sys, pid, payload, key);
        UnansweredKeeps(sys, AppendBy(sys, pid, payload, key).0, pid, target, code);
      }
    case Interrupted(pid, outcome, errorPayload, target, code) =>
      if pid in sys.procs && sys.procs[pid].k in sys.reg.runs {
        ProgressKeeps(sys, pid, outcome, errorPayload);
        ProgressTasks(sys, pid, outcome, errorPayload);
        UnansweredKeeps(sys, Progress(sys, pid, outcome, errorPayload), pid, target, code);
      }
    case _ => SpawnKeeps(sys, step);
  }

  ghost predicate AllAllowed(steps: seq<Step>) {
    forall i :: 0 <= i < |steps| ==> Allowed(steps[i])
  }

  lemma {:induction false} TraceInv(steps: seq<Step>)
    requires AllAllowed(steps)
    ensures SystemInv(Trace(INITIAL, steps))
  {
    hide Next, Allowed;
    if steps == [] {
    } else {
      TraceInv(steps[..|steps| - 1]);
      NextKeeps(Trace(INITIAL, steps[..|steps| - 1]), steps[|steps| - 1]);
    }
  }

  /** In every interleaving of executors, takeovers, pauses, resumes, timeouts, crashes and
      cancellations: a terminal stream run has a `[DONE]` under its final token in its log. */
  lemma TerminalStreamHasDone(steps: seq<Step>, k: RunKey)
    requires AllAllowed(steps) && k in Trace(INITIAL, steps).reg.runs
    ensures var r := Trace(INITIAL, steps).reg.runs[k];
            r.kind == Stream && r.status.Terminal() ==> DoneIn(r.history, r.fence)
  {
    TraceInv(steps);
    assert DoneRecorded(Trace(INITIAL, steps).reg.runs[k]);
  }

  // ----- the marker is in the log, but not always at its end

  predicate EndsWithDone(r: Run) {
    r.history != [] && DoneWith(r.history[|r.history| - 1], r.fence)
  }

  /** The executor's next steps with no other step in between. */
  function RunAlone(sys: System, pid: nat, outcome: Outcome, errorPayload: Payload, steps: nat): System
    decreases steps
  {
    if steps == 0 then sys
    else RunAlone(Next(sys, Advance(pid, outcome, errorPayload)), pid, outcome, errorPayload, steps - 1)
  }

  /** A keyed append by the owner of a pending run: nothing if the key is known. */
  function AppendOnce(r: Run, p: Payload, key: EventKey): Run {
    if key in r.dedupe then r else AppendTo(r, r.fence, p, Some(key))
  }

  /** Executor `p` is registered and its run is `r`. */
  ghost predicate At(sys: System, pid: nat, p: Proc, r: Run) {
    pid in sys.procs && sys.procs[pid] == p && p.k in sys.reg.runs && sys.reg.runs[p.k] == r
  }

  /** The executor still owns the run and may write to it. */
  predicate Active(p: Proc, r: Run) {
    r.status.Pending() && Holds(r, p.h)
  }

  // ----- single steps of an active executor

  lemma HandlerLoads(sys: System, pid: nat, p: Proc, r: Run, o: Outcome, e: Payload)
    requires At(sys, pid, p, r) && p.pc.Handler? && p.kind == Stream && Active(p, r)
    ensures At(Next(sys, Advance(pid, o, e)), pid, p.(pc := AppendError(p.pc.target, p.pc.code)), r)
  {
  }

  lemma HandlerAppendsError(sys: System, pid: nat, p: Proc, r: Run, o: Outcome, e: Payload)
    requires At(sys, pid, p, r) && p.pc.AppendError? && !e.isDone && Active(p, r)
    ensures At(Next(sys, Advance(pid, o, e)), pid,
               p.(pc := if p.localDone then CommitError(p.pc.target) else AppendErrorDone(p.pc.target)),
               AppendOnce(r, e, TerminalError(p.pc.code)))
  {
    hide AppendTo;
  }

  lemma HandlerAppendsDone(sys: System, pid: nat, p: Proc, r: Run, o: Outcome, e: Payload)
    requires At(sys, pid, p, r) && p.pc.AppendErrorDone? && Active(p, r)
    ensures At(Next(sys, Advance(pid, o, e)), pid, p.(pc := CommitError(p.pc.target), localDone := true),
               AppendOnce(r, DONE, TerminalDone(r.fence)))
  {
    hide AppendTo;
  }

  lemma HandlerFinishes(sys: System, pid: nat, p: Proc, r: Run, o: Outcome, e: Payload)
    requires At(sys, pid, p, r) && p.pc.CommitError? && p.pc.target.Terminal() && Active(p, r)
    ensures At(Next(sys, Advance(pid, o, e)), pid, p.(pc := Finished), Finish(r, p.pc.target, o))
  {
    hide Finish, Move;
  }

  lemma ReturnLoads(sys: System, pid: nat, p: Proc, r: Run, o: Outcome, e: Payload)
    requires At(sys, pid, p, r) && p.pc == Refresh && Active(p, r)
    ensures At(Next(sys, Advance(pid, o, e)), pid,
               p.(pc := if p.kind == Stream && !r.doneEmitted then AppendDone else Commit(Verdict(r))), r)
  {
  }

  lemma ReturnAppends(sys: System, pid: nat, p: Proc, r: Run, o: Outcome, e: Payload)
    requires At(sys, pid, p, r) && p.pc == AppendDone && Active(p, r)
    ensures At(Next(sys, Advance(pid, o, e)), pid, p.(pc := Recheck, localDone := true),
               AppendOnce(r, DONE, TerminalDone(r.fence)))
  {
    hide AppendTo;
  }

  lemma ReturnFinishes(sys: System, pid: nat, p: Proc, r: Run, o: Outcome, e: Payload)
    requires At(sys, pid, p, r) && p.pc.Commit? && p.pc.target.Terminal() && Active(p, r)
    ensures At(Next(sys, Advance(pid, o, e)), pid, p.(pc := Finished), Finish(r, p.pc.target, o))
  {
    hide Finish, Move;
  }

  lemma FinishedStays(sys: System, pid: nat, o: Outcome, e: Payload)
    requires pid in sys.procs && sys.procs[pid].pc == Finished
    ensures Next(sys, Advance(pid, o, e)) == sys
  {
  }

  lemma Four(sys: System, pid: nat, o: Outcome, e: Payload)
    ensures var step := Advance(pid, o, e);
            RunAlone(sys, pid, o, e, 4) == Next(Next(Next(Next(sys, step), step), step), step)
  {
    hide Next;
    var step := Advance(pid, o, e);
    var sys1 := Next(sys, step);
    var sys2 := Next(sys1, step);
    var sys3 := Next(sys2, step);
    assert RunAlone(sys3, pid, o, e, 1) == Next(sys3, step);
    assert RunAlone(sys2, pid, o, e, 2) == RunAlone(sys3, pid, o, e, 1);
    assert RunAlone(sys1, pid, o, e, 3) == RunAlone(sys2, pid, o, e, 2);
  }

  lemma AppendFrame(r: Run, p: Payload, key: Option<EventKey>)
    ensures var r' := AppendTo(r, r.fence, p, key);
            && r'.owner == r.owner && r'.fence == r.fence && r'.status == r.status && r'.kind == r.kind
            && r'.streamFailed == r.streamFailed
            && r'.history == r.history + [Event(p, Some(r.fence))]
            && (forall x :: x in r'.dedupe <==> x in r.dedupe || key == Some(x))
  {
  }

  // ----- a whole except clause, a whole return

  /** What an except clause appends to a pending run of its owner: for a stream the error, unless it
      is recorded already, and then a marker, unless the executor knows of one or one is recorded. */
  function ErrorLog(p: Proc, r: Run, code: Token, e: Payload): seq<Event> {
    (if p.kind == Stream && TerminalError(code) !in r.dedupe then [Event(e, Some(r.fence))] else [])
    + (if p.kind == Stream && !p.localDone && TerminalDone(r.fence) !in r.dedupe
       then [Event(DONE, Some(r.fence))] else [])
  }

  /** An except clause of an executor that owns a pending run, from its reload to its commit, when
      nothing interrupts it: the run ends with the clause's status and outcome. */
  lemma HandlerCommits(sys: System, pid: nat, p: Proc, r: Run, o: Outcome, e: Payload)
    requires At(sys, pid, p, r) && Active(p, r)
    requires p.pc.Handler? && p.pc.target.Terminal() && !e.isDone
    ensures var end := RunAlone(sys, pid, o, e, 4);
            && p.k in end.reg.runs
            && var r' := end.reg.runs[p.k];
               && r'.status == p.pc.target && r'.outcome == o && r'.kind == r.kind
               && r'.owner == r.owner && r'.fence == r.fence
               && r'.history == r.history + ErrorLog(p, r, p.pc.code, e)
  {
    hide AppendTo, AppendOnce, Finish, Next, RunAlone;
    var step := Advance(pid, o, e);
    var r2 := if p.kind == Stream then AppendOnce(r, e, TerminalError(p.pc.code)) else r;
    var r3 := if p.kind == Stream && !p.localDone then AppendOnce(r2, DONE, TerminalDone(r.fence)) else r2;
    AppendOnceFrame(r, e, TerminalError(p.pc.code));
    AppendOnceFrame(r2, DONE, TerminalDone(r.fence));
    var sys1 := Next(sys, step);
    var sys2 := Next(sys1, step);
    var sys3 := Next(sys2, step);
    if p.kind != Stream {
      HandlerLoadsInvoke(sys, pid, p, r, o, e);
      HandlerFinishes(sys1, pid, sys1.procs[pid], r, o, e);
      FinishedStays(sys2, pid, o, e);
      FinishedStays(sys3, pid, o, e);
    } else {
      HandlerLoads(sys, pid, p, r, o, e);
      HandlerAppendsError(sys1, pid, sys1.procs[pid], r, o, e);
      if p.localDone {
        HandlerFinishes(sys2, pid, sys2.procs[pid], r2, o, e);
        FinishedStays(sys3, pid, o, e);
      } else {
        HandlerAppendsDone(sys2, pid, sys2.procs[pid], r2, o, e);
        HandlerFinishes(sys3, pid, sys3.procs[pid], r3, o, e);
      }
    }
    Four(sys, pid, o, e);
    FinishFrame(r3, p.pc.target, o);
  }

  lemma HandlerLoadsInvoke(sys: System, pid: nat, p: Proc, r: Run, o: Outcome, e: Payload)
    requires At(sys, pid, p, r) && p.pc.Handler? && p.kind != Stream && Active(p, r)
    ensures At(Next(sys, Advance(pid, o, e)), pid, p.(pc := CommitError(p.pc.target)), r)
  {
  }

  lemma AppendOnceFrame(r: Run, p: Payload, key: EventKey)
    ensures var r' := AppendOnce(r, p, key);
            && r'.owner == r.owner && r'.fence == r.fence && r'.status == r.status && r'.kind == r.kind
            && r'.streamFailed == r.streamFailed
            && r'.history == r.history + (if key in r.dedupe then [] else [Event(p, Some(r.fence))])
            && (forall x :: x in r'.dedupe <==> x in r.dedupe || x == key)
  {
    hide AppendTo;
    AppendFrame(r, p, Some(key));
  }

  lemma FinishFrame(r: Run, target: Status, o: Outcome)
    ensures var r' := Finish(r, target, o);
            && r'.status == target && r'.outcome == o && r'.kind == r.kind && r'.owner == r.owner && r'.fence == r.fence
            && r'.history == r.history
  {
  }

  /** What the end of the try body appends: for a stream the marker, unless one was emitted under
      this token or is recorded under its key. */
  function ReturnLog(p: Proc, r: Run): seq<Event> {
    if p.kind == Stream && !r.doneEmitted && TerminalDone(r.fence) !in r.dedupe
    then [Event(DONE, Some(r.fence))] else []
  }

  /** The end of the try body of an executor that owns a pending run, from its reload to its commit,
      when nothing interrupts it: the run fails if its stream was marked as failed and completes
      otherwise. */
  lemma ReturnCommits(sys: System, pid: nat, p: Proc, r: Run, o: Outcome, e: Payload)
    requires At(sys, pid, p, r) && p.pc == Refresh && Active(p, r)
    ensures var end := RunAlone(sys, pid, o, e, 4);
            && p.k in end.reg.runs
            && var r' := end.reg.runs[p.k];
               && r'.status == (if r.streamFailed then Failed else Completed)
               && r'.outcome == o && r'.kind == r.kind && r'.owner == r.owner && r'.fence == r.fence
               && r'.history == r.history + ReturnLog(p, r)
  {
    hide AppendTo, AppendOnce, Finish, Next, RunAlone;
    var step := Advance(pid, o, e);
    var writes := p.kind == Stream && !r.doneEmitted;
    var r1 := if writes then AppendOnce(r, DONE, TerminalDone(r.fence)) else r;
    AppendOnceFrame(r, DONE, TerminalDone(r.fence));
    var sys1 := Next(sys, step);
    ReturnLoads(sys, pid, p, r, o, e);
    var sys2 := Next(sys1, step);
    var sys3 := Next(sys2, step);
    if !writes {
      ReturnFinishes(sys1, pid, sys1.procs[pid], r, o, e);
      FinishedStays(sys2, pid, o, e);
      FinishedStays(sys3, pid, o, e);
    } else {
      ReturnAppends(sys1, pid, sys1.procs[pid], r, o, e);
      ReturnRechecks(sys2, pid, sys2.procs[pid], r1, o, e);
      ReturnFinishes(sys3, pid, sys3.procs[pid], r1, o, e);
    }
    Four(sys, pid, o, e);
    FinishFrame(r1, Verdict(r), o);
  }

  lemma ReturnRechecks(sys: System, pid: nat, p: Proc, r: Run, o: Outcome, e: Payload)
    requires At(sys, pid, p, r) && p.pc == Recheck
    ensures At(Next(sys, Advance(pid, o, e)), pid, p.(pc := Commit(Verdict(r))), r)
  {
  }

  lemma FinishEnds(r: Run, target: Status, o: Outcome)
    ensures EndsWithDone(Finish(r, target, o)) <==> EndsWithDone(r)
    ensures Finish(r, target, o).status == target && Finish(r, target, o).kind == r.kind
  {
  }

  /** Exactly when an except clause that nothing interrupts leaves its marker last: the clause writes the
      marker, because the executor knows of none and none was recorded under its key, or the
      clause writes nothing, because its error is recorded already, and the marker was last. */
  lemma MarkerIsLastAfterError(sys: System, pid: nat, p: Proc, r: Run, o: Outcome, e: Payload)
    requires At(sys, pid, p, r) && p.kind == Stream && Active(p, r)
    requires p.pc.Handler? && p.pc.target.Terminal() && !e.isDone
    ensures var end := RunAlone(sys, pid, o, e, 4);
            && p.k in end.reg.runs
            && end.reg.runs[p.k].status == p.pc.target && end.reg.runs[p.k].kind == r.kind
            && (EndsWithDone(end.reg.runs[p.k]) <==>
                  || (!p.localDone && TerminalDone(r.fence) !in r.dedupe)
                  || (TerminalError(p.pc.code) in r.dedupe && EndsWithDone(r)))
  {
    hide RunAlone;
    HandlerCommits(sys, pid, p, r, o, e);
  }

  /** Exactly when a return that nothing interrupts leaves its marker last: the executor writes it
      now, or one was written before and nothing behind it. */
  lemma MarkerIsLastAfterReturn(sys: System, pid: nat, p: Proc, r: Run, o: Outcome, e: Payload)
    requires At(sys, pid, p, r) && p.pc == Refresh && p.kind == Stream && Active(p, r)
    ensures var end := RunAlone(sys, pid, o, e, 4);
            && p.k in end.reg.runs
            && end.reg.runs[p.k].status == (if r.streamFailed then Failed else Completed)
            && end.reg.runs[p.k].kind == r.kind
            && (EndsWithDone(end.reg.runs[p.k]) <==>
                  (!r.doneEmitted && TerminalDone(r.fence) !in r.dedupe) || EndsWithDone(r))
  {
    hide RunAlone;
    ReturnCommits(sys, pid, p, r, o, e);
  }

  /** The executor is done or still producing, or its handle is superseded or its run terminal, or
      it is about to find its run waiting for input. An executor past its reload that holds a run
      paused since is not among them: it goes on and commits. */
  predicate Powerless(p: Proc, r: Run) {
    p.pc.Finished? || p.pc.Producing? || !Holds(r, p.h) || r.status.Terminal()
    || ((p.pc.Handler? || p.pc.Refresh?) && !Active(p, r))
  }

  lemma PowerlessStep(sys: System, pid: nat, p: Proc, r: Run, o: Outcome, e: Payload)
    requires At(sys, pid, p, r) && Powerless(p, r)
    ensures var next := Next(sys, Advance(pid, o, e));
            next.reg == sys.reg && pid in next.procs && next.procs[pid].k == p.k && Powerless(next.procs[pid], r)
  {
    hide AppendTo, Finish, Move;
  }

  /** The remaining steps of a powerless executor change nothing at all. */
  lemma {:induction false} PowerlessForGood(sys: System, pid: nat, p: Proc, r: Run, o: Outcome, e: Payload, steps: nat)
    requires At(sys, pid, p, r) && Powerless(p, r)
    ensures RunAlone(sys, pid, o, e, steps).reg == sys.reg
    decreases steps
  {
    hide Next, Powerless;
    if steps == 0 {
    } else {
      PowerlessStep(sys, pid, p, r, o, e);
      var next := Next(sys, Advance(pid, o, e));
      PowerlessForGood(next, pid, next.procs[pid], r, o, e, steps - 1);
    }
  }

  // ----- over every interleaving

  /** What an executor does to the registry is one script of its own, or nothing. */
  lemma StepIsScript(sys: System, step: Step) returns (op: Op)
    requires Allowed(step)
    ensures WellFormed(op) && !op.Expire? && Next(sys, step).reg == Apply(sys.reg, op)
    ensures op.DoCancel? <==> step.Env? && step.op.DoCancel?
  {
    hide Append, Transition, SameOwner, Verdict;
    op := Tick(0);
    assert Apply(sys.reg, Tick(0)) == sys.reg;
    match step
    case Env(o) => op := o;
    case ProducerAppends(pid, payload, key) =>
      if pid in sys.procs && sys.procs[pid].pc == Producing { op := AppendScript(sys, pid, payload, key); }
    case ProducerInterrupted(pid, payload, key, _, _) =>
      if pid in sys.procs && sys.procs[pid].pc == Producing { op := AppendScript(sys, pid, payload, key); }
    case Advance(pid, o, e) =>
      if pid in sys.procs && sys.procs[pid].k in sys.reg.runs { op := ProgressScript(sys, pid, o, e); }
    case Interrupted(pid, o, e, _, _) =>
      if pid in sys.procs && sys.procs[pid].k in sys.reg.runs { op := ProgressScript(sys, pid, o, e); }
    case _ =>
  }

  lemma AppendScript(sys: System, pid: nat, payload: Payload, key: Option<EventKey>) returns (op: Op)
    requires pid in sys.procs
    ensures op == DoAppend(sys.procs[pid].k, sys.procs[pid].h, payload, key)
    ensures AppendBy(sys, pid, payload, key).0.reg == Apply(sys.reg, op)
  {
    hide Append;
    op := DoAppend(sys.procs[pid].k, sys.procs[pid].h, payload, key);
  }

  lemma ProgressScript(sys: System, pid: nat, o: Outcome, e: Payload) returns (op: Op)
    requires pid in sys.procs && sys.procs[pid].k in sys.reg.runs
    ensures op.Tick? || op.DoAppend? || op.DoTransition?
    ensures Progress(sys, pid, o, e).reg == Apply(sys.reg, op)
  {
    hide Append, Transition, SameOwner, Verdict, AppendBy;
    var p := sys.procs[pid];
    op := Tick(0);
    assert Apply(sys.reg, Tick(0)) == sys.reg;
    match p.pc
    case AppendDone =>
      AppendByTasks(sys, pid, DONE, Some(TerminalDone(p.h.fence)));
      op := AppendScript(sys, pid, DONE, Some(TerminalDone(p.h.fence)));
    case AppendError(_, code) =>
      AppendByTasks(sys, pid, e, Some(TerminalError(code)));
      op := AppendScript(sys, pid, e, Some(TerminalError(code)));
    case AppendErrorDone(_) =>
      AppendByTasks(sys, pid, DONE, Some(TerminalDone(p.h.fence)));
      op := AppendScript(sys, pid, DONE, Some(TerminalDone(p.h.fence)));
    case Commit(target) => op := DoTransition(p.k, p.h, target, o);
    case CommitError(target) => op := DoTransition(p.k, p.h, target, o);
    case _ =>
  }

  /** The script that ends a run: a cancellation, or a transition that leaves the log as it is. */
  lemma EndingScript(s: State, op: Op, k: RunKey)
    requires k in s.runs && k in Apply(s, op).runs && WellFormed(op) && s.runs[k].kind == Stream
    requires !s.runs[k].status.Terminal() && Apply(s, op).runs[k].status.Terminal()
    ensures EndsWithDone(Apply(s, op).runs[k]) <==> op.DoCancel? || EndsWithDone(s.runs[k])
  {
    if op.Tick? || op.k != k {
      ElsewhereDelta(s, op, k);
    } else if op.DoCancel? {
      CancelDelta(s, op, k);
      CancelEnds(s.runs[k], op.cancel);
    } else if op.DoTransition? {
      hide Finish, Move, EndsWithDone;
      FinishEnds(s.runs[k], op.target, op.outcome);
    } else {
      StaysOpen(s, op);
    }
  }

  lemma StaysOpen(s: State, op: Op)
    requires !op.Tick? && op.k in s.runs && op.k in Apply(s, op).runs && !s.runs[op.k].status.Terminal()
    requires !op.DoCancel? && !op.DoTransition?
    ensures !Apply(s, op).runs[op.k].status.Terminal()
  {
    hide AppendTo, PauseRun, LiveScores, Move, Bump, Denies;
    if op.DoAppend? { AppendStatus(s.runs[op.k], op.h.fence, op.payload, op.eventKey); }
    if op.DoPause? { PauseFrame(s.runs[op.k], op.interaction, op.payload); }
  }

  lemma AppendStatus(r: Run, fence: nat, p: Payload, key: Option<EventKey>)
    ensures AppendTo(r, fence, p, key).status == r.status
  {
  }

  lemma CancelEnds(r: Run, q: CancelRequest)
    requires r.kind == Stream && q.doneEvent.isDone
    ensures EndsWithDone(CancelRun(r, q.error, q.errorEvent, q.doneEvent))
  {
  }

  /** Exactly when the step that ends a stream run leaves its marker last, whatever went before and
      whoever interfered: it is a cancellation, or the log ended with the marker already. */
  lemma MarkerIsLastIff(sys: System, step: Step, k: RunKey)
    requires Allowed(step) && k in sys.reg.runs && k in Next(sys, step).reg.runs && sys.reg.runs[k].kind == Stream
    requires !sys.reg.runs[k].status.Terminal() && Next(sys, step).reg.runs[k].status.Terminal()
    ensures EndsWithDone(Next(sys, step).reg.runs[k])
            <==> (step.Env? && step.op.DoCancel?) || EndsWithDone(sys.reg.runs[k])
  {
    hide Next, Apply, EndsWithDone;
    var op := StepIsScript(sys, step);
    EndingScript(sys.reg, op, k);
  }

  /** Over a whole interleaving: for every terminal stream run there is the step that ended it, and
      the run ends with its marker if and only if that step was a cancellation or found it last. */
  lemma {:induction false} TerminalEndsWithDoneIff(steps: seq<Step>, k: RunKey) returns (i: nat)
    requires AllAllowed(steps) && k in Trace(INITIAL, steps).reg.runs
    requires Trace(INITIAL, steps).reg.runs[k].kind == Stream && Trace(INITIAL, steps).reg.runs[k].status.Terminal()
    ensures i < |steps|
    ensures var before := Trace(INITIAL, steps[..i]).reg.runs;
            && k in before && !before[k].status.Terminal()
            && (EndsWithDone(Trace(INITIAL, steps).reg.runs[k])
                <==> (steps[i].Env? && steps[i].op.DoCancel?) || EndsWithDone(before[k]))
  {
    if steps == [] {
      assert false;
    } else {
      hide Next, EndsWithDone, Allowed;
      var front, step := steps[..|steps| - 1], steps[|steps| - 1];
      var sys := Trace(INITIAL, front);
      TraceInv(front);
      StepEvolves(sys, step, k);
      assert Next(sys, step) == Trace(INITIAL, steps);
      if sys.reg.runs[k].status.Terminal() {
        i := TerminalEndsWithDoneIff(front, k);
        assert steps[..i] == front[..i] && steps[i] == front[i];
        FrozenEnds(sys.reg.runs[k], Next(sys, step).reg.runs[k]);
      } else {
        i := |front|;
        assert steps[..i] == front;
        MarkerIsLastIff(sys, step, k);
      }
    }
  }

  lemma FrozenEnds(r: Run, later: Run)
    requires Evolves(r, later) && r.status.Terminal()
    ensures EndsWithDone(later) <==> EndsWithDone(r)
  {
  }

  /** A run that is terminal after a step was there before it. */
  lemma StepEvolves(sys: System, step: Step, k: RunKey)
    requires SystemInv(sys) && Allowed(step) && k in Next(sys, step).reg.runs
    requires Next(sys, step).reg.runs[k].status.Terminal()
    ensures k in sys.reg.runs && Evolves(sys.reg.runs[k], Next(sys, step).reg.runs[k])
  {
    hide Next, Apply, RunInv, Evolves, ProcOk, DoneRecorded;
    var op := StepIsScript(sys, step);
    StepKeeps(sys.reg, op);
    if k !in sys.reg.runs { NewIsQueued(sys.reg, op, k); }
  }

  lemma NewIsQueued(s: State, op: Op, k: RunKey)
    requires k !in s.runs && k in Apply(s, op).runs
    ensures Apply(s, op).runs[k].status == Queued
  {
    hide Move, Bump, Denies, LiveScores;
  }

  // ----- four ways to bury a marker

  lemma TraceMore(steps: seq<Step>, step: Step)
    ensures Trace(INITIAL, steps + [step]) == Next(Trace(INITIAL, steps), step)
  {
    hide Next;
    assert (steps + [step])[..|steps|] == steps;
  }

  lemma TraceThree(steps: seq<Step>, a: Step, b: Step, c: Step)
    ensures Trace(INITIAL, steps + [a, b, c]) == Next(Next(Next(Trace(INITIAL, steps), a), b), c)
  {
    hide Next;
    TraceMore(steps, a);
    TraceMore(steps + [a], b);
    TraceMore(steps + [a] + [b], c);
    assert steps + [a] + [b] + [c] == steps + [a, b, c];
  }

  const REQUEST: StartRequest := StartRequest(0, Stream, None, 8, 5, 10, 1)
  const RUNNING: Run := BeginRunning(NewRun(REQUEST, 10), 10)
  const OWNER: Handle := Handle(5, 1)

  /** A run is started, gets its slot and its executor. */
  const PROLOGUE: seq<Step> := [Env(DoStart(0, REQUEST)), Env(DoAcquire(0, OWNER, 1, 10)), SpawnLoaded(0, 0, 5)]

  lemma Prologue()
    ensures At(Trace(INITIAL, PROLOGUE), 0, Proc(0, Stream, OWNER, false, Producing), RUNNING)
  {
    hide Next;
    TraceThree([], PROLOGUE[0], PROLOGUE[1], PROLOGUE[2]);
    assert [] + [PROLOGUE[0], PROLOGUE[1], PROLOGUE[2]] == PROLOGUE;
    StartsAndAcquires();
    Spawns(Next(Next(INITIAL, PROLOGUE[0]), PROLOGUE[1]));
  }

  lemma StartsAndAcquires()
    ensures var sys := Next(Next(INITIAL, PROLOGUE[0]), PROLOGUE[1]);
            sys.procs == map[] && sys.reg.runs == map[0 := RUNNING]
  {
    assert LiveScores(EMPTY.active, 0) == {} && LiveScores(EMPTY.running, 0) == {};
  }

  lemma Spawns(sys: System)
    requires sys.procs == map[] && sys.reg.runs == map[0 := RUNNING]
    ensures At(Next(sys, PROLOGUE[2]), 0, Proc(0, Stream, OWNER, false, Producing), RUNNING)
  {
  }

  lemma RunsToEnd(steps: seq<Step>, o: Outcome, e: Payload) returns (all: seq<Step>)
    requires AllAllowed(steps) && !e.isDone
    ensures AllAllowed(all) && Trace(INITIAL, all) == RunAlone(Trace(INITIAL, steps), 0, o, e, 4)
  {
    hide Next, RunAlone;
    var step := Advance(0, o, e);
    Four(Trace(INITIAL, steps), 0, o, e);
    TraceThree(steps, step, step, step);
    TraceMore(steps + [step, step, step], step);
    all := steps + [step, step, step] + [step];
  }

  ghost predicate Buried(steps: seq<Step>) {
    && AllAllowed(steps) && 0 in Trace(INITIAL, steps).reg.runs
    && var r := Trace(INITIAL, steps).reg.runs[0];
       r.kind == Stream && r.status.Terminal() && DoneIn(r.history, r.fence) && !EndsWithDone(r)
  }

  /** The producer writes its own `[DONE]` and is then timed out. */
  lemma BuriedByTimeout(o: Outcome, e: Payload) returns (steps: seq<Step>)
    requires !e.isDone
    ensures Buried(steps)
  {
    hide Next, DoneIn, RunAlone, EndsWithDone, At;
    var a, b := ProducerAppends(0, DONE, None), Raise(0, TimedOut, 7);
    Prologue();
    TraceMore(PROLOGUE, a);
    TraceMore(PROLOGUE + [a], b);
    var p, r := TimesOutAfterDone(Trace(INITIAL, PROLOGUE));
    MarkerIsLastAfterError(Trace(INITIAL, PROLOGUE + [a] + [b]), 0, p, r, o, e);
    steps := RunsToEnd(PROLOGUE + [a] + [b], o, e);
    TerminalStreamHasDone(steps, 0);
  }

  lemma TimesOutAfterDone(sys: System) returns (p: Proc, r: Run)
    requires At(sys, 0, Proc(0, Stream, OWNER, false, Producing), RUNNING)
    ensures At(Next(Next(sys, ProducerAppends(0, DONE, None)), Raise(0, TimedOut, 7)), 0, p, r)
    ensures p.k == 0 && p.kind == Stream && p.localDone && p.pc == Handler(TimedOut, 7) && Active(p, r)
    ensures r.kind == Stream && TerminalError(7) !in r.dedupe
  {
    p, r := Proc(0, Stream, OWNER, true, Handler(TimedOut, 7)), AppendTo(RUNNING, 1, DONE, None);
  }

  /** The executor is interrupted while its own `[DONE]` is being appended: the script ran, the
      local flag stays false, and the second attempt of the except clause is a duplicate. */
  lemma BuriedByLostReply(o: Outcome, e: Payload) returns (steps: seq<Step>)
    requires !e.isDone
    ensures Buried(steps)
  {
    hide Next, DoneIn, RunAlone, EndsWithDone, At;
    var a, b, c := ProducerReturns(0), Advance(0, o, e), Interrupted(0, o, e, TimedOut, 7);
    Prologue();
    TraceThree(PROLOGUE, a, b, c);
    var p, r := LosesReply(Trace(INITIAL, PROLOGUE), o, e);
    MarkerIsLastAfterError(Trace(INITIAL, PROLOGUE + [a, b, c]), 0, p, r, o, e);
    steps := RunsToEnd(PROLOGUE + [a, b, c], o, e);
    TerminalStreamHasDone(steps, 0);
  }

  lemma LosesReply(sys: System, o: Outcome, e: Payload) returns (p: Proc, r: Run)
    requires At(sys, 0, Proc(0, Stream, OWNER, false, Producing), RUNNING)
    ensures At(Next(Next(Next(sys, ProducerReturns(0)), Advance(0, o, e)), Interrupted(0, o, e, TimedOut, 7)), 0, p, r)
    ensures p.k == 0 && p.kind == Stream && !p.localDone && p.pc == Handler(TimedOut, 7) && Active(p, r)
    ensures r.kind == Stream && TerminalError(7) !in r.dedupe && TerminalDone(r.fence) in r.dedupe
  {
    hide AppendTo;
    p, r := Proc(0, Stream, OWNER, false, Handler(TimedOut, 7)), AppendTo(RUNNING, 1, DONE, Some(TerminalDone(1)));
    AppendFrame(RUNNING, DONE, Some(TerminalDone(1)));
    var sys2 := Next(Next(sys, ProducerReturns(0)), Advance(0, o, e));
    assert At(sys2, 0, Proc(0, Stream, OWNER, false, AppendDone), RUNNING);
  }

  /** The producer goes on after its own `[DONE]` and returns normally. */
  lemma BuriedByProducer(o: Outcome, e: Payload) returns (steps: seq<Step>)
    requires !e.isDone
    ensures Buried(steps)
  {
    hide Next, DoneIn, RunAlone, At;
    var a, b, c := ProducerAppends(0, DONE, None), ProducerAppends(0, e, None), ProducerReturns(0);
    Prologue();
    TraceThree(PROLOGUE, a, b, c);
    var p, r := GoesOn(Trace(INITIAL, PROLOGUE), e);
    MarkerIsLastAfterReturn(Trace(INITIAL, PROLOGUE + [a, b, c]), 0, p, r, o, e);
    steps := RunsToEnd(PROLOGUE + [a, b, c], o, e);
    TerminalStreamHasDone(steps, 0);
  }

  lemma GoesOn(sys: System, e: Payload) returns (p: Proc, r: Run)
    requires At(sys, 0, Proc(0, Stream, OWNER, false, Producing), RUNNING) && !e.isDone
    ensures var sys2 := Next(Next(sys, ProducerAppends(0, DONE, None)), ProducerAppends(0, e, None));
            At(Next(sys2, ProducerReturns(0)), 0, p, r)
    ensures p.k == 0 && p.kind == Stream && p.pc == Refresh && Active(p, r)
    ensures r.kind == Stream && r.doneEmitted && !EndsWithDone(r)
  {
    hide AppendTo;
    var r1 := AppendTo(RUNNING, 1, DONE, None);
    p, r := Proc(0, Stream, OWNER, true, Refresh), AppendTo(r1, 1, e, None);
    AppendFrame(RUNNING, DONE, None);
    AppendFrame(r1, e, None);
    AppendFlag(RUNNING, DONE, None);
    AppendFlag(r1, e, None);
    assert At(Next(sys, ProducerAppends(0, DONE, None)), 0, Proc(0, Stream, OWNER, true, Producing), r1);
  }

  lemma AppendFlag(r: Run, p: Payload, key: Option<EventKey>)
    ensures AppendTo(r, r.fence, p, key).doneEmitted == (r.doneEmitted || p.isDone)
  {
  }

  /** A pause comes between the executor's own `[DONE]` and its commit: the commit ends the waiting
      run, with the question behind the marker. */
  lemma BuriedByPause(o: Outcome, e: Payload, i: Interaction) returns (steps: seq<Step>)
    requires !e.isDone
    ensures Buried(steps)
  {
    hide Next, DoneIn, RunAlone, At;
    var a, b, c := ProducerReturns(0), Advance(0, o, e), Env(DoPause(0, OWNER, i, e));
    Prologue();
    TraceThree(PROLOGUE, a, b, b);
    TraceThree(PROLOGUE + [a, b, b], c, b, b);
    PausesBeforeCommit(Trace(INITIAL, PROLOGUE), o, e, i);
    steps := PROLOGUE + [a, b, b] + [c, b, b];
    TerminalStreamHasDone(steps, 0);
  }

  lemma PausesBeforeCommit(sys: System, o: Outcome, e: Payload, i: Interaction)
    requires At(sys, 0, Proc(0, Stream, OWNER, false, Producing), RUNNING) && !e.isDone
    ensures var b := Advance(0, o, e);
            var sys3 := Next(Next(Next(sys, ProducerReturns(0)), b), b);
            var end := Next(Next(Next(sys3, Env(DoPause(0, OWNER, i, e))), b), b);
            && 0 in end.reg.runs && end.reg.runs[0].kind == Stream && end.reg.runs[0].status == Completed
            && !EndsWithDone(end.reg.runs[0])
  {
    hide AppendTo, PauseRun, Finish, Move, Next;
    var b := Advance(0, o, e);
    var sys1 := Next(sys, ProducerReturns(0));
    assert At(sys1, 0, Proc(0, Stream, OWNER, false, Refresh), RUNNING) by { Returns(sys); }
    var sys2 := Next(sys1, b);
    ReturnLoads(sys1, 0, sys1.procs[0], RUNNING, o, e);
    var sys3 := Next(sys2, b);
    ReturnAppends(sys2, 0, sys2.procs[0], RUNNING, o, e);
    var r := AppendOnce(RUNNING, DONE, TerminalDone(1));
    AppendFrame(RUNNING, DONE, Some(TerminalDone(1)));
    var sys4 := Next(sys3, Env(DoPause(0, OWNER, i, e)));
    var paused := PauseRun(r, i, e);
    PausesRun(sys3, sys3.procs[0], r, i, e);
    PauseFrame(r, i, e);
    var sys5 := Next(sys4, b);
    ReturnRechecks(sys4, 0, sys4.procs[0], paused, o, e);
    CommitsWaiting(sys5, sys5.procs[0], paused, o, e);
    FinishEnds(paused, Completed, o);
  }

  lemma Returns(sys: System)
    requires At(sys, 0, Proc(0, Stream, OWNER, false, Producing), RUNNING)
    ensures At(Next(sys, ProducerReturns(0)), 0, Proc(0, Stream, OWNER, false, Refresh), RUNNING)
  {
  }

  lemma PausesRun(sys: System, p: Proc, r: Run, i: Interaction, e: Payload)
    requires At(sys, 0, p, r) && p.k == 0 && r.status == Running && Holds(r, OWNER)
    ensures At(Next(sys, Env(DoPause(0, OWNER, i, e))), 0, p, PauseRun(r, i, e))
  {
    hide PauseRun, Move;
  }

  lemma PauseFrame(r: Run, i: Interaction, p: Payload)
    ensures var r' := PauseRun(r, i, p);
            && r'.owner == r.owner && r'.fence == r.fence && r'.status == WaitingForInput && r'.kind == r.kind
            && r'.streamFailed == r.streamFailed && r'.history == r.history + [Event(p, None)]
  {
  }

  lemma CommitsWaiting(sys: System, p: Proc, r: Run, o: Outcome, e: Payload)
    requires At(sys, 0, p, r) && p.pc == Commit(Completed) && r.status == WaitingForInput && Holds(r, p.h)
    ensures p.k in Next(sys, Advance(0, o, e)).reg.runs
    ensures Next(sys, Advance(0, o, e)).reg.runs[p.k] == Finish(r, Completed, o)
  {
    hide Finish, Move;
  }

  /** A stream marked as failed by its executor ends as failed although its producer returns. */
  lemma FailedStreamFails(o: Outcome, e: Payload, code: Token) returns (steps: seq<Step>)
    requires !e.isDone
    ensures AllAllowed(steps) && 0 in Trace(INITIAL, steps).reg.runs
    ensures Trace(INITIAL, steps).reg.runs[0].status == Failed
  {
    hide Next, RunAlone, At;
    var a, b := Env(DoMarkFailed(0, OWNER, code, code, 500)), ProducerReturns(0);
    Prologue();
    TraceMore(PROLOGUE, a);
    TraceMore(PROLOGUE + [a], b);
    var p, r := MarksAndReturns(Trace(INITIAL, PROLOGUE), code);
    ReturnCommits(Trace(INITIAL, PROLOGUE + [a] + [b]), 0, p, r, o, e);
    steps := RunsToEnd(PROLOGUE + [a] + [b], o, e);
  }

  lemma MarksAndReturns(sys: System, code: Token) returns (p: Proc, r: Run)
    requires At(sys, 0, Proc(0, Stream, OWNER, false, Producing), RUNNING)
    ensures At(Next(Next(sys, Env(DoMarkFailed(0, OWNER, code, code, 500))), ProducerReturns(0)), 0, p, r)
    ensures p.k == 0 && p.pc == Refresh && Active(p, r) && r.streamFailed
  {
    p := Proc(0, Stream, OWNER, false, Refresh);
    r := RUNNING.(streamFailed := true, outcome := Outcome(RUNNING.outcome.result, Some(code), Some(code), 500));
  }
}
