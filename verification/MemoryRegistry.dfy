/** The in-memory registry: the same API on plain records, without leases or tokens. */
module MemoryRegistry {
  import opened RunTypes
  import R = RedisScripts

  /** `events` is a deque that keeps its newest `bufferSize` elements. */
  datatype Record = Record(
    fingerprint: Token, kind: Kind, user: Option<UserId>, bufferSize: nat,
    status: Status, interaction: Option<Interaction>, responses: map<Token, Interaction>, generation: nat,
    errorCode: Option<Token>, error: Option<Token>, streamFailed: bool,
    events: seq<(nat, Payload)>, nextEventId: nat, eventKeys: map<EventKey, nat>)

  type Records = map<RunKey, Record>

  /** What a caller observes: a new execution, the existing one, or the exception raised. */
  datatype Decision =
    | Accepted | Existing
    | RunConflict | RunAccess | RunOverloaded | RunNotFound | InvalidTransition | InteractionConflict

  /** What replaces a payload over the size limit. */
  datatype Oversize = Oversize(code: Token, message: Token, replacement: Payload)

  predicate Refuses(r: Record, user: Option<UserId>) {
    r.user.Some? && r.user != user
  }

  function PendingKeys(m: Records): set<RunKey> {
    set k | k in m && m[k].status.Pending()
  }

  function NewRecord(q: R.StartRequest): Record {
    Record(q.fingerprint, q.kind, q.user, q.bufferSize, Queued, None, map[], 1, None, None, false, [], 1, map[])
  }

  function Start(m: Records, k: RunKey, q: R.StartRequest): (Records, Decision) {
    if k in m then
      if Refuses(m[k], q.user) then (m, RunAccess)
      else if m[k].fingerprint != q.fingerprint || m[k].kind != q.kind then (m, RunConflict)
      else (m, Existing)
    else if |PendingKeys(m)| >= q.limit then (m, RunOverloaded)
    else (m[k := NewRecord(q)], Accepted)
  }

  /** One more event at the end of the deque. */
  function Logged(r: Record, p: Payload): Record {
    r.(events := Newest(r.events + [(r.nextEventId, p)], r.bufferSize), nextEventId := r.nextEventId + 1)
  }

  function PausedRecord(r: Record, i: Interaction, p: Payload): Record {
    Logged(r.(status := WaitingForInput, interaction := Some(i)), p)
  }

  function Pause(m: Records, k: RunKey, i: Interaction, p: Payload, tooLarge: bool): (Records, Decision) {
    if tooLarge then (m, InvalidTransition)
    else if k !in m then (m, RunNotFound)
    else if m[k].status == WaitingForInput then
      (m, if m[k].interaction == Some(i) then Existing else InteractionConflict)
    else if m[k].status != Running then (m, InvalidTransition)
    else (m[k := PausedRecord(m[k], i, p)], Accepted)
  }

  function ResumedRecord(r: Record, i: Interaction, response: Token): Record {
    r.(status := Queued, interaction := None, responses := r.responses[response := i],
       errorCode := None, error := None, generation := r.generation + 1)
  }

  function Resume(m: Records, k: RunKey, q: R.ResumeRequest): (Records, Decision) {
    if k !in m then (m, RunNotFound)
    else if Refuses(m[k], q.user) then (m, RunAccess)
    else if q.response in m[k].responses then
      (m, if m[k].responses[q.response] == q.interaction then Existing else InteractionConflict)
    else if m[k].status != WaitingForInput then (m, InvalidTransition)
    else if m[k].interaction != Some(q.interaction) then (m, InteractionConflict)
    else (m[k := ResumedRecord(m[k], q.interaction, q.response)], Accepted)
  }

  function Failing(r: Record, code: Token, message: Token): Record {
    r.(streamFailed := true, errorCode := Some(code), error := Some(message))
  }

  function LoggedUnder(r: Record, p: Payload, key: Option<EventKey>): Record {
    var logged := Logged(r, p);
    if key.Some? then logged.(eventKeys := logged.eventKeys[key.value := r.nextEventId]) else logged
  }

  /** `append_event` on a record, with the id it returns. */
  function Append(r: Record, p: Payload, key: Option<EventKey>, oversize: Option<Oversize>): (Record, Decision, nat) {
    if r.status == WaitingForInput && p.isDone then (r, InvalidTransition, 0)
    else if key.Some? && key.value in r.eventKeys then (r, Existing, r.eventKeys[key.value])
    else if oversize.Some? then
      (LoggedUnder(Failing(r, oversize.value.code, oversize.value.message), oversize.value.replacement, key),
       Accepted, r.nextEventId)
    else (LoggedUnder(r, p, key), Accepted, r.nextEventId)
  }

  /** `RunRegistry`, with the methods that run under its guard. */
  class Registry {
    var records: Records

    constructor ()
      ensures records == map[]
    {
      records := map[];
    }

    method CountPending() returns (n: nat)
      ensures n == |PendingKeys(records)|
    {
      n := 0;
      var todo := records.Keys;
      assert PendingKeys(records) * todo == PendingKeys(records);
      while todo != {}
        invariant todo <= records.Keys
        invariant n + |PendingKeys(records) * todo| == |PendingKeys(records)|
        decreases |todo|
      {
        var k :| k in todo;
        var pending := PendingKeys(records);
        assert pending * (todo - {k}) == pending * todo - {k};
        if records[k].status.Pending() {
          assert k in pending * todo;
          n := n + 1;
        } else {
          assert k !in pending;
        }
        todo := todo - {k};
      }
      assert PendingKeys(records) * {} == {};
    }

    method StartRun(k: RunKey, q: R.StartRequest) returns (d: Decision)
      modifies this
      ensures (records, d) == Start(old(records), k, q)
    {
      if k in records {
        var existing := records[k];
        if existing.user.Some? && existing.user != q.user { return RunAccess; }
        if existing.fingerprint != q.fingerprint || existing.kind != q.kind { return RunConflict; }
        return Existing;
      }
      var pending := CountPending();
      if pending >= q.limit { return RunOverloaded; }
      records := records[k := NewRecord(q)];
      return Accepted;
    }

    method PauseRun(k: RunKey, i: Interaction, p: Payload, tooLarge: bool) returns (d: Decision)
      modifies this
      ensures (records, d) == Pause(old(records), k, i, p, tooLarge)
    {
      if tooLarge { return InvalidTransition; }
      if k !in records { return RunNotFound; }
      var current := records[k];
      if current.status == WaitingForInput {
        if current.interaction == Some(i) { return Existing; }
        return InteractionConflict;
      }
      if current.status != Running { return InvalidTransition; }
      current := current.(status := WaitingForInput);
      current := current.(interaction := Some(i));
      var id := current.nextEventId;
      current := current.(nextEventId := id + 1);
      current := current.(events := Newest(current.events + [(id, p)], current.bufferSize));
      records := records[k := current];
      return Accepted;
    }

    method ResumeRun(k: RunKey, q: R.ResumeRequest) returns (d: Decision)
      modifies this
      ensures (records, d) == Resume(old(records), k, q)
    {
      if k !in records { return RunNotFound; }
      var record := records[k];
      if record.user.Some? && record.user != q.user { return RunAccess; }
      if q.response in record.responses {
        if record.responses[q.response] != q.interaction { return InteractionConflict; }
        return Existing;
      }
      if record.status != WaitingForInput { return InvalidTransition; }
      if record.interaction != Some(q.interaction) { return InteractionConflict; }
      record := record.(responses := record.responses[q.response := q.interaction]);
      record := record.(status := Queued, interaction := None);
      record := record.(errorCode := None, error := None);
      record := record.(generation := record.generation + 1);
      records := records[k := record];
      return Accepted;
    }

    /** The record is the caller's, so it is there. */
    method AppendEvent(k: RunKey, p: Payload, key: Option<EventKey>, oversize: Option<Oversize>)
      returns (d: Decision, id: nat)
      requires k in records
      modifies this
      ensures records.Keys == old(records.Keys) && records == old(records)[k := records[k]]
      ensures (records[k], d, id) == Append(old(records)[k], p, key, oversize)
    {
      var record, payload := records[k], p;
      if record.status == WaitingForInput && p.isDone { return InvalidTransition, 0; }
      if key.Some? && key.value in record.eventKeys { return Existing, record.eventKeys[key.value]; }
      if oversize.Some? {
        record := record.(streamFailed := true, errorCode := Some(oversize.value.code));
        record := record.(error := Some(oversize.value.message));
        payload := oversize.value.replacement;
      }
      id := record.nextEventId;
      record := record.(nextEventId := id + 1);
      record := record.(events := Newest(record.events + [(id, payload)], record.bufferSize));
      if key.Some? { record := record.(eventKeys := record.eventKeys[key.value := id]); }
      records := records[k := record];
      d := Accepted;
    }
  }

  // ----- what every operation keeps

  /** The deque holds the newest events under consecutive ids, keys name past events, and there is
      one generation per accepted response and one to begin with. */
  predicate RecordInv(r: Record) {
    && r.nextEventId > 0
    && |r.events| == (if r.nextEventId - 1 <= r.bufferSize then r.nextEventId - 1 else r.bufferSize)
    && (forall i :: 0 <= i < |r.events| ==> r.events[i].0 == r.nextEventId - |r.events| + i)
    && (forall x :: x in r.eventKeys ==> 1 <= r.eventKeys[x] < r.nextEventId)
    && r.generation == 1 + |r.responses|
  }

  lemma NewRecordOk(q: R.StartRequest)
    ensures RecordInv(NewRecord(q))
  {
  }

  lemma LoggedKeeps(r: Record, p: Payload)
    requires RecordInv(r)
    ensures RecordInv(Logged(r, p))
    ensures r.bufferSize > 0 ==> var r' := Logged(r, p); r'.events[|r'.events| - 1] == (r.nextEventId, p)
  {
  }

  lemma LoggedFrame(r: Record, p: Payload)
    ensures var r' := Logged(r, p);
            r'.eventKeys == r.eventKeys && r'.nextEventId == r.nextEventId + 1
  {
  }

  lemma LoggedUnderKeeps(r: Record, p: Payload, key: Option<EventKey>)
    requires RecordInv(r)
    ensures RecordInv(LoggedUnder(r, p, key))
  {
    hide Newest, Logged;
    LoggedKeeps(r, p);
    LoggedFrame(r, p);
  }

  lemma AppendKeeps(r: Record, p: Payload, key: Option<EventKey>, oversize: Option<Oversize>)
    requires RecordInv(r)
    ensures RecordInv(Append(r, p, key, oversize).0)
  {
    hide LoggedUnder;
    LoggedUnderKeeps(r, p, key);
    if oversize.Some? {
      var failing := Failing(r, oversize.value.code, oversize.value.message);
      assert RecordInv(failing);
      LoggedUnderKeeps(failing, oversize.value.replacement, key);
    }
  }

  /** An oversize payload is never logged: its replacement is, and the stream is marked as failed with
      the error. Otherwise an append marks nothing. */
  lemma OversizeIsReplaced(r: Record, p: Payload, key: Option<EventKey>, oversize: Option<Oversize>)
    requires Append(r, p, key, oversize).1 == Accepted && r.bufferSize > 0
    ensures var (r', _, id) := Append(r, p, key, oversize);
            && id == r.nextEventId && r'.nextEventId == id + 1 && r'.events != []
            && r'.events[|r'.events| - 1] == (id, if oversize.Some? then oversize.value.replacement else p)
            && (key.Some? ==> key.value in r'.eventKeys && r'.eventKeys[key.value] == id)
            && (if oversize.Some?
                then && r'.streamFailed && r'.errorCode == Some(oversize.value.code)
                     && r'.error == Some(oversize.value.message)
                else r'.streamFailed == r.streamFailed && r'.errorCode == r.errorCode && r'.error == r.error)
  {
  }

  lemma PauseKeeps(r: Record, i: Interaction, p: Payload)
    requires RecordInv(r)
    ensures RecordInv(PausedRecord(r, i, p))
  {
    hide Logged;
    LoggedKeeps(r.(status := WaitingForInput, interaction := Some(i)), p);
  }

  lemma ResumeKeeps(r: Record, i: Interaction, response: Token)
    requires RecordInv(r) && response !in r.responses
    ensures RecordInv(ResumedRecord(r, i, response))
  {
    assert r.responses[response := i].Keys == r.responses.Keys + {response};
  }
}
