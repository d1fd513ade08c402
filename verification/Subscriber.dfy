/** `RedisRunRegistry.subscribe` and the client that follows it across reconnects.

    The run may change between any two reads of the subscriber, in any way `Evolves` permits;
    by `RunInvariants.StepKeeps` that covers every script of every instance. */
module Subscriber {
  import opened RunTypes
  import opened RedisScripts
  import opened RunInvariants
  import opened RunTheorems

  // ----- _done_delivery_action

  datatype Action = Deliver | Skip | Wait

  function DoneAction(e: Event, status: Status, fence: nat, newest: nat, id: nat): Action {
    if !e.payload.isDone then Deliver
    else if e.fence.None? then if status.Terminal() && id == newest then Deliver else Skip
    else if e.fence.value != fence then Skip
    else if !status.Terminal() then Wait
    else if id == newest then Deliver
    else Skip
  }

  function Verdict(r: Run, id: nat): Action
    requires 1 <= id <= |r.history|
  {
    DoneAction(r.history[id - 1], r.status, r.fence, r.lastEventId, id)
  }

  /** A verdict other than "wait" on a fenced event is final: tokens only grow and terminal
      states are absorbing. A delivered marker is the last event of a terminal run for good. */
  lemma VerdictIsFinal(r: Run, later: Run, id: nat)
    requires RunInv(r) && RunInv(later) && Evolves(r, later)
    requires 1 <= id <= |r.history| && r.history[id - 1].fence.Some?
    ensures id <= |later.history|
    ensures Verdict(r, id) != Wait ==> Verdict(later, id) == Verdict(r, id)
    ensures r.history[id - 1].payload.isDone && Verdict(r, id) == Deliver ==>
              later.status.Terminal() && id == |later.history|
  {
    hide LogContiguous, LifecycleTracks, Alternates, DoneIn, Pauses;
  }

  /** When a terminal run does not end with its marker, no marker of its log is ever delivered. */
  lemma BuriedMarkersAreSkipped(r: Run, id: nat)
    requires RunInv(r) && r.status.Terminal() && 1 <= id <= |r.history|
    requires r.history[id - 1].payload.isDone && r.history[id - 1].fence.Some?
    ensures Verdict(r, id) == if id == |r.history| && DoneWith(r.history[id - 1], r.fence) then Deliver else Skip
  {
    hide FencesOrdered, LogContiguous, LifecycleTracks, Alternates, DoneIn, Pauses;
  }

  // ----- the opening checks

  /** `_replay_gap`: XRANGE of the first entry in state `r`, then HGET last_event_id in state
      `later`, read only if the stream was empty. The result is the id of the gap frame. */
  function ReplayGap(r: Run, later: Run, cursor: nat): Option<int> {
    if r.entries == [] then
      if later.lastEventId > cursor then Some(later.lastEventId) else None
    else if cursor < r.entries[0].id - 1 then Some(r.entries[0].id - 1)
    else None
  }

  /** Both opening checks of `subscribe` on a state that stands still. */
  function OpeningGap(r: Run, cursor: nat): Option<int> {
    if cursor > r.lastEventId then Some(cursor + 1) else ReplayGap(r, r, cursor)
  }

  predicate Retained(r: Run, id: nat) {
    exists i :: 0 <= i < |r.entries| && r.entries[i].id == id
  }

  /** A gap is reported exactly when the cursor is ahead of the log or the next event has been
      trimmed, and the frame that reports it always passes the client's cursor filter. */
  lemma OpeningGapIsExact(r: Run, cursor: nat)
    requires RunInv(r)
    ensures OpeningGap(r, cursor).Some?
            <==> cursor > r.lastEventId || (cursor < r.lastEventId && !Retained(r, cursor + 1))
    ensures OpeningGap(r, cursor).Some? ==> OpeningGap(r, cursor).value > cursor
  {
    hide RunInv;
    Window(r);
    if r.lastEventId - |r.entries| <= cursor < r.lastEventId {
      assert r.entries[cursor - (r.lastEventId - |r.entries|)].id == cursor + 1;
    }
  }

  /** The two reads of `_replay_gap` are not atomic. On a log of which nothing has been trimmed
      they report a gap if and only if the first event arrives between them. */
  lemma GapWithoutTrimming(r: Run, later: Run, cursor: nat)
    requires RunInv(r) && RunInv(later) && Evolves(r, later)
    requires cursor <= r.lastEventId && later.lastEventId <= later.bufferSize
    ensures ReplayGap(r, later, cursor).Some? <==> r.lastEventId == 0 && later.lastEventId > 0
  {
    hide RunInv;
    Window(r);
    assert |r.history| <= |later.history| && |r.history| == r.lastEventId && |later.history| == later.lastEventId by {
      LogLength(r);
      LogLength(later);
    }
  }

  /** In general, a reported gap is spurious, the event behind the cursor being retained, if and only
      if the log was empty at the first read and its first event is there at the second. */
  lemma GapIsSpuriousIff(r: Run, later: Run, cursor: nat)
    requires RunInv(r) && RunInv(later) && Evolves(r, later) && cursor <= r.lastEventId
    ensures ReplayGap(r, later, cursor).Some? && Retained(later, cursor + 1)
            <==> r.lastEventId == 0 && Retained(later, 1)
  {
    hide RunInv, Retained;
    Window(r);
    Window(later);
    LogLength(r);
    LogLength(later);
    assert |r.history| <= |later.history|;
    RetainedIff(later, cursor + 1);
    RetainedIff(later, 1);
  }

  lemma RetainedIff(r: Run, id: nat)
    requires RunInv(r) && id > 0
    ensures Retained(r, id) <==> r.lastEventId - |r.entries| < id <= r.lastEventId
  {
    hide RunInv;
    Window(r);
    var first := r.lastEventId - |r.entries| + 1;
    if first <= id <= r.lastEventId { assert r.entries[id - first].id == id; }
  }

  /** For example, when the first event of a fresh run is appended between the two reads. */
  lemma FirstEventLooksLikeAGap(q: StartRequest, lease: nat, p: Payload)
    requires q.bufferSize > 0
    ensures var r := NewRun(q, lease);
            var later := AppendTo(r, r.fence, p, None);
            && RunInv(r) && RunInv(later) && Evolves(r, later)
            && ReplayGap(r, later, 0) == Some(1) && OpeningGap(r, 0) == None && OpeningGap(later, 0) == None
  {
    hide RunInv, Evolves, AppendTo, NewRun;
    var r := NewRun(q, lease);
    NewRunKeeps(q, lease);
    FirstEvent(q, lease, p);
    AppendKeeps(r, p, None);
    var later := AppendTo(r, r.fence, p, None);
    Window(r);
    Window(later);
  }

  lemma FirstEvent(q: StartRequest, lease: nat, p: Payload)
    ensures var r := NewRun(q, lease);
            && r.lastEventId == 0 && r.entries == [] && r.status == Queued
            && AppendTo(r, r.fence, p, None).lastEventId == 1
            && AppendTo(r, r.fence, p, None).bufferSize == q.bufferSize
  {
  }

  // ----- XREAD

  /** The entries behind `cursor`, at most 256 of them. */
  function ReadAfter(entries: seq<Entry>, cursor: nat): seq<Entry> {
    if entries == [] then []
    else if entries[0].id <= cursor then ReadAfter(entries[1..], cursor)
    else if |entries| <= 256 then entries else entries[..256]
  }

  /** Nothing behind the cursor has been trimmed. */
  predicate Buffered(r: Run, cursor: nat) {
    r.lastEventId - |r.entries| <= cursor
  }

  lemma {:induction false} ReadAfterSlice(entries: seq<Entry>, first: nat, cursor: nat)
    requires forall i :: 0 <= i < |entries| ==> entries[i].id == first + i
    ensures var behind := if cursor < first then 0 else cursor - first + 1;
            var skip := if behind <= |entries| then behind else |entries|;
            var rest := entries[skip..];
            ReadAfter(entries, cursor) == if |rest| <= 256 then rest else rest[..256]
  {
    if entries == [] || cursor < first {
    } else {
      ReadAfterSlice(entries[1..], first + 1, cursor);
    }
  }

  /** Events `from+1, from+2, ...` of the log. */
  ghost predicate Consecutive(batch: seq<Entry>, from: nat, history: seq<Event>) {
    && (batch != [] ==> from + |batch| <= |history|)
    && (forall i :: 0 <= i < |batch| ==> batch[i] == Entry(from + 1 + i, history[from + i]))
  }

  /** How many of the retained entries a read at `cursor` passes over. */
  function Passed(r: Run, cursor: nat): nat
    requires cursor <= r.lastEventId
  {
    if Buffered(r, cursor) then cursor - (r.lastEventId - |r.entries|) else 0
  }

  lemma ReadIsSlice(r: Run, cursor: nat)
    requires RunInv(r) && cursor <= r.lastEventId
    ensures Passed(r, cursor) <= |r.entries|
    ensures ReadAfter(r.entries, cursor) <= r.entries[Passed(r, cursor)..]
  {
    hide RunInv;
    Window(r);
    ReadAfterSlice(r.entries, r.lastEventId - |r.entries| + 1, cursor);
  }

  /** A read returns all that is retained behind the cursor, up to 256 entries. */
  lemma ReadIsFull(r: Run, cursor: nat)
    requires RunInv(r) && cursor <= r.lastEventId
    ensures var available := |r.entries| - Passed(r, cursor);
            |ReadAfter(r.entries, cursor)| == if available <= 256 then available else 256
    ensures Passed(r, cursor) == |r.entries| <==> cursor == r.lastEventId || r.entries == []
  {
    hide RunInv;
    Window(r);
    ReadAfterSlice(r.entries, r.lastEventId - |r.entries| + 1, cursor);
  }

  /** A read returns consecutive events of the log, all behind the cursor. It continues the log
      without a hole if and only if nothing behind the cursor has been trimmed; mid-stream, nothing
      reports the hole. */
  lemma ReadIsConsecutive(r: Run, cursor: nat)
    requires RunInv(r) && cursor <= r.lastEventId && ReadAfter(r.entries, cursor) != []
    ensures var batch := ReadAfter(r.entries, cursor);
            && cursor < batch[0].id && Consecutive(batch, batch[0].id - 1, r.history)
            && (batch[0].id == cursor + 1 <==> Buffered(r, cursor))
  {
    hide RunInv, ReadAfter;
    Window(r);
    LogLength(r);
    ReadIsSlice(r, cursor);
    var batch := ReadAfter(r.entries, cursor);
    forall i | 0 <= i < |batch| ensures batch[i] == r.entries[Passed(r, cursor) + i] {
      assert batch[i] == r.entries[Passed(r, cursor)..][i];
    }
  }
}
