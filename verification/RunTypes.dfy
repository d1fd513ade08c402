/** The entities of the run registry: runs, their event logs and their lifecycle.

    Identifiers (request digests, instance ids, users, interaction ids, result and
    error texts) are compared for equality only, so each is a token of type `nat`.
    An empty string in Redis (anonymous user, no result, no error) is `None`. */
module RunTypes {

  datatype Option<+T> = None | Some(value: T)

  type RunKey = nat
  type Instance = nat
  type UserId = nat
  type Token = nat

  /** MAXLEN n: a stream keeps its newest n entries. */
  function Newest<T>(s: seq<T>, n: nat): seq<T> {
    if |s| <= n then s else s[|s| - n..]
  }

  datatype Kind = Invoke | Stream

  datatype Status =
    | Queued | Running | WaitingForInput
    | Completed | Failed | Cancelled | TimedOut
  {
    predicate Terminal() {
      Completed? || Failed? || Cancelled? || TimedOut?
    }

    /** Queued or running: the statuses that need an execution lease. */
    predicate Pending() {
      Queued? || Running?
    }
  }

  /** A stream payload is opaque, except for being the `[DONE]` marker and for
      whether it yields a structured audit record. */
  datatype Payload = Payload(body: Token, isDone: bool, audited: bool)

  /** A pause event is written without a fencing token. */
  datatype Event = Event(payload: Payload, fence: Option<nat>)

  /** An entry of the bounded Redis stream; `id` is its sequence number. */
  datatype Entry = Entry(id: nat, event: Event)

  datatype Interaction = Interaction(id: Token, version: int)

  /** Fields of the per-run dedupe hash. The four kinds carry distinct prefixes
      (`ahe:`, `terminal-error:`, `terminal-done:`, `interaction:`). */
  datatype EventKey =
    | AheKey(record: Token)
    | TerminalError(code: Token)
    | TerminalDone(fence: nat)
    | InteractionKey(interaction: Interaction)

  datatype LifecycleEntry = StatusChange(status: Status) | LeaseTakenOver(status: Status)

  datatype Outcome = Outcome(result: Option<Token>, errorCode: Option<Token>, error: Option<Token>, httpStatus: nat)

  /** The run hash together with the streams and the dedupe hash stored beside it.
      `history` is the untrimmed log; no script reads it. */
  datatype Run = Run(
    fingerprint: Token,
    kind: Kind,
    user: Option<UserId>,
    bufferSize: nat,
    status: Status,
    runId: Option<Token>,
    outcome: Outcome,
    streamFailed: bool,
    doneEmitted: bool,
    interaction: Option<Interaction>,
    lastEventId: nat,
    owner: Instance,
    fence: nat,
    leaseUntil: nat,
    stateVersion: nat,
    entries: seq<Entry>,
    lifecycle: seq<LifecycleEntry>,
    dedupe: map<EventKey, nat>,
    responses: map<Token, Interaction>,
    history: seq<Event>)

  datatype AuditKind =
    | RunAccepted | RunLeaseTakenOver | RunStarted | RunFinished | RunCancelled
    | RunWaitingForInput | RunInputAccepted
    | RunIdAssigned | RunStreamFailed | StreamEvent

  /** One entry of the audit outbox. */
  datatype Audit = Audit(kind: AuditKind, key: RunKey, status: Status, owner: Instance, fence: nat)

  /** What an executor presents with every write: its instance and the token it was granted. */
  datatype Handle = Handle(owner: Instance, fence: nat)
}
