# Verified model of the run registry and its event path

The service executes agent runs on many instances at once. A run lives in Redis: a hash with its
status, owner, fencing token and lease, a bounded event stream, a lifecycle stream, a dedupe hash and
the accepted responses. Every mutation is one atomic Lua script. This project models those scripts,
the processes that call them (executor, subscriber, browser client, waiter), the simple in-memory
registry they stand in for, and the components around them: the SSE printer and parser, the
idempotent event publisher, the outbox-to-Kafka relay, the per-thread lock table, the UI projection
and the aggregation of evolution candidates.

`dafny verify dfyconfig.toml` checks everything.

## How it is organised

| module | what it holds |
|---|---|
| `RunTypes` | runs, events, statuses, handles |
| `RedisScripts` | each Lua script as a function from state to state and reply; interleavings as sequences of such steps |
| `RedisStore` | the scripts as they run, command by command, on a mutable store; proved equal to `RedisScripts` |
| `Access`, `Leases` | who may do what, stated on the stored fields, and what a granted lease is worth |
| `RunInvariants`, `RunTheorems` | what every script keeps of a run, and the safety of whole interleavings |
| `IndexInvariants` | the `active` and `running` sorted sets, the counters, the concurrency limit |
| `AuditTrail` | the audit outbox against the lifecycle |
| `Executor` | `_execute` as a program counter machine, any number of them at once |
| `Subscriber`, `Client` | `subscribe` as a program counter machine, and a client that follows it over reconnects |
| `Delivery` | that the subscriber gets on, sends exactly what is due, and the client handles it |
| `WaitTerminal` | `wait_terminal` |
| `MemoryRegistry`, `Simulation` | the in-memory registry, and that Redis simulates it |
| `SseParser`, `SsePrinter` | the incremental parser and the frame printer |
| `LockTable`, `EventPublisher`, `KafkaRelay` | the smaller concurrent components |
| `Sorting`, `UiSnapshot`, `CandidateAggregation` | the two projections and the sort they share |

Conventions. Identifiers, digests and texts that are only compared are natural numbers. Payloads are
opaque, except for being `[DONE]` and for whether they yield an audit record. Time is a server clock
that only moves forward. `Run.history` is the log before trimming; no script reads it, so it is
specification state. Claims about one run are for one incarnation, from its creation until the key
expires: a key that is created again starts at token 1, which an executor left over from the
previous incarnation could match. `Evolves(r, later)` says how a run may change within an
incarnation; `StepKeeps` proves that every script of every instance stays within it, and the
subscriber, client and waiter are verified against any run that changes that way.

## What the proofs turned up

Each of these is a property one would expect, with a lemma at an input where it fails and one that
says exactly when it holds.

- A terminal stream run need not end with its `[DONE]`, and when it does not, no subscriber ever
  delivers one (`Subscriber.BuriedMarkersAreSkipped`). Over every interleaving, it does exactly when
  the step that ended the run was a cancellation or found the marker last
  (`Executor.MarkerIsLastIff`, `Executor.TerminalEndsWithDoneIff`). Four ways to bury the marker are
  reached: the producer writes its own and is then timed out (`Executor.BuriedByTimeout`); the executor
  is interrupted while its own marker is being appended, so that the script ran and the local flag
  stays false (`Executor.BuriedByLostReply`); the producer goes on after its own marker and returns
  normally (`Executor.BuriedByProducer`); a pause comes between the executor's marker and its commit,
  which ends the waiting run (`Executor.BuriedByPause`). For an except clause or a return that nothing
  interrupts, the condition can be read off before it begins (`Executor.MarkerIsLastAfterError`,
  `Executor.MarkerIsLastAfterReturn`). That the marker exists somewhere in the log always holds
  (`Executor.TerminalStreamHasDone`).
- `_replay_gap` reads twice. A first event that arrives between the two reads is reported as a gap
  although it is there (`Subscriber.FirstEventLooksLikeAGap`), and no other report is wrong
  (`Subscriber.GapIsSpuriousIff`, `Subscriber.GapWithoutTrimming`).
- Trimming in mid-stream is only looked for when a poll returns nothing. A read that returns entries
  passes over a trimmed event without a report, and the client never handles it
  (`Client.EventLostSilently`, `Client.LostForGood`). Reads pass over an event exactly when the one
  behind the cursor has been trimmed (`Client.PassesOverIff`, `Client.ReadPassesOver`), and such events
  and stale markers are all a client can lack (`Client.HandledExactlyOnce`); an idle poll reports
  trimming exactly (`Client.IdlePollReports`).
- A heartbeat renews an expired lease, so the concurrency limit can be exceeded
  (`IndexInvariants.LimitCanBeExceeded`), by exactly that step (`IndexInvariants.LimitExceededIff`).
- A terminal run can still change: its `run_id` (`RunTheorems.RunIdOfTerminalRunCanChange`), by its
  owner's assignment of another one and nothing else (`RunTheorems.TerminalRunChangesIff`).
- A task cancelled a second time while it waits for the guard leaves its lock-table entry behind for
  good (`LockTable.AbandonLeaks`). When no task is left, the table is empty exactly when that never
  happened (`LockTable.NoLeakIff`).
- When two publishes share a clock reading, the index ranks them by record id, not by age. A full
  index can then forget the record just published, so that publishing it again is not idempotent
  (`EventPublisher.EqualClockForgetsNewest`), and an index that was not full yet can later forget a
  record the stream still holds (`EventPublisher.EarlierTieForgetsRetained`). A publish keeps the three
  structures on the same records exactly when there is room or what leaves the index is what leaves the
  stream (`EventPublisher.PublishAgreesIff`); ranks go on matching the stream exactly when the new
  record is ranked last (`EventPublisher.AlignmentSurvivesIff`).
- A tool result that is the first retained row is not recognised, because its call was trimmed
  (`UiSnapshot.FirstRowOfWindowCanDiffer`). Exactly when a retained suffix shows what the whole log
  shows is `UiSnapshot.WindowAgreesIff` and `UiSnapshot.SilentWindowAgreesIff`.
- `start` differs from the in-memory registry when a lease has expired: a repeated start exactly when
  it takes the run over (`Simulation.RepeatedStartAgreesIff`), a first start exactly when there is room
  only because runs with expired leases are not counted (`Simulation.FirstStartAgreesIff`).

## Model

| member | source | states |
|---|---|---|
| `RedisStore.XAdd` | src/service/redis_run_registry.py:347-348 | the next id is one above `last_event_id` and the entry is appended under it |
| `RedisStore.XTrim` | src/service/redis_run_registry.py:349-350 | dropping oldest entries one by one leaves exactly the newest `bufferSize` |
| `RedisStore.Store.StartScript` | src/service/redis_run_registry.py:238-328 | create, attach, conflict, access and overload branches leave the whole store and the reply of the specification |
| `RedisStore.Store.TakeOverLease` | src/service/redis_run_registry.py:267-297 | the takeover of an expired lease raises the token, requeues the run, clears its error and `[DONE]` flag and moves the counters |
| `RedisStore.Store.AppendScript` | src/service/redis_run_registry.py:333-355 | guard order, dedupe by key, trimming, `[DONE]` flag and audit entry; whole store |
| `RedisStore.Store.AcquireScript` | src/service/redis_run_registry.py:360-394 | only the holder of a queued run takes a slot, and only below the limit; each refusal its own reply; whole store |
| `RedisStore.Store.HeartbeatScript` | src/service/redis_run_registry.py:399-416 | renews hash, `active` and, for a running run, `running`; whole store |
| `RedisStore.Store.ReleaseScript` | src/service/redis_run_registry.py:426-440 | lease and both scores become 0 even for a queued run; whole store |
| `RedisStore.Store.TransitionScript` | src/service/redis_run_registry.py:446-488 | only the holder ends a run, once, and the run leaves both sorted sets; each refusal its own reply; whole store |
| `RedisStore.Store.CancelScript` | src/service/redis_run_registry.py:494-541 | raises the token and, for a stream run, writes error and `[DONE]` under the new token in the same step; whole store |
| `RedisStore.Store.SetRunIdScript` | src/service/redis_run_registry.py:546-564 | owner-guarded, no terminal check; missing and fenced told apart; whole store |
| `RedisStore.Store.MarkStreamFailedScript` | src/service/redis_run_registry.py:569-593 | owner-guarded, refused on terminal runs; missing, fenced and terminal told apart; whole store |
| `RedisStore.Store.PauseScript` | src/service/redis_run_registry.py:599-638 | idempotent for the current interaction, conflict for another; drops the lease and leaves both sorted sets; whole store |
| `RedisStore.Store.ResumeScript` | src/service/redis_run_registry.py:644-686 | replay, reuse and mismatch branches; acceptance raises the token, requeues and remembers the response; whole store |
| `Access.AcceptsIff` | src/service/redis_run_registry.py:238-686 | every script accepts if and only if the stored owner, token, status, user, keys and live counts are as required, and one that does not accept changes nothing |
| `Access.StrangerIsRefused` | src/service/redis_run_registry.py:238-263 | a caller other than the run's user gets the access refusal from start, cancel and resume, and changes nothing |
| `Access.StartReplies` | src/service/redis_run_registry.py:238-328 | each refusal of a start has its one reason, in order; the tokens of the other replies |
| `Access.AppendReplies` | src/service/redis_run_registry.py:333-355 | each refusal of an append has its one reason; the ids of the other replies |
| `Access.OwnerReplies` | src/service/redis_run_registry.py:360-593 | each refusal of acquire, transition, `set_run_id` and `mark_stream_failed` has its one reason |
| `Access.PauseReplies` | src/service/redis_run_registry.py:599-638 | each reply of a pause has its one reason |
| `Access.ResumeReplies` | src/service/redis_run_registry.py:644-686 | each reply of a resume has its one reason |
| `Access.CancelReplies` | src/service/redis_run_registry.py:494-541 | each reply of a cancel has its one reason |
| `Access.CreatedIsBlank` | src/service/redis_run_registry.py:298-328 | a created run holds the request's data, token 1, the full lease and nothing else |
| `Access.TakeoverKeepsProgress` | src/service/redis_run_registry.py:267-297 | a takeover keeps log, keys, responses, result and `run_id`; it requeues under the next token with the full lease and clears error and marker flag |
| `Access.ResumeKeepsProgress` | src/service/redis_run_registry.py:644-686 | so does an accepted answer, which is remembered |
| `Access.FailureIsRecorded` | src/service/redis_run_registry.py:569-593 | a failed stream is remembered with code, message and HTTP status, and nothing else changes |
| `Leases.LeaseIsExclusive` | src/service/redis_run_registry.py:238-416 | after a lease granted by a start, an acquire, a heartbeat or a resume, no start takes the run over before it ends, whatever else happens, unless it is released or cut short |
| `Leases.LeaseEnds` | src/service/redis_run_registry.py:238-416 | and from its end on, without a renewal, every start that may use the run does, if it is still queued or running |
| `Leases.ReleasedIsFree` | src/service/redis_run_registry.py:426-440 | a released queued or running run can be taken over at once; a release of any other run changes nothing |
| `Leases.SecondStartAttaches` | src/service/redis_run_registry.py:238-328 | a second start within the lease attaches to the first one's run |
| `RunInvariants.TakeOverKeeps` | src/service/redis_run_registry.py:267-297 | a takeover keeps the run invariant and only lets the run evolve |
| `RunInvariants.AppendKeeps` | src/service/redis_run_registry.py:333-355 | an accepted append keeps contiguity, token order and the `[DONE]` flag's meaning |
| `RunInvariants.CancelKeeps` | src/service/redis_run_registry.py:494-541 | a cancellation keeps the invariant, and a cancelled stream run ends with a `[DONE]` under its new token |
| `RunInvariants.PauseKeeps` | src/service/redis_run_registry.py:599-638 | a pause keeps the invariant: one more pause than responses |
| `RunInvariants.ResumeKeeps` | src/service/redis_run_registry.py:644-686 | a resume keeps the invariant: pauses and responses are even again |
| `RunInvariants.StepKeeps` | src/service/redis_run_registry.py:238-686 | every script keeps the invariant of every run and changes at most one run, within `Evolves`; only terminal runs disappear |
| `RunInvariants.ReachableInv` | src/service/redis_run_registry.py:238-686 | the invariant holds after any interleaving from the empty store |
| `RunInvariants.RunEvolves` | src/service/redis_run_registry.py:238-686 | across any interleaving within its incarnation a run only evolves |
| `RunTheorems.Fencing` | src/service/redis_run_registry.py:267-297 | tokens never decrease, one token value has one owner, tokens in the log are non-decreasing |
| `RunTheorems.SupersededWriteIsInert` | src/service/redis_run_registry.py:333-488 | a write with a superseded token changes nothing, in any later state |
| `RunTheorems.TerminalIsAbsorbing` | src/service/redis_run_registry.py:446-488 | a terminal run never changes again, except `run_id` |
| `RunTheorems.RunIdOfTerminalRunCanChange` | src/service/redis_run_registry.py:546-564 | the exception is real |
| `RunTheorems.TerminalRunChangesIff` | src/service/redis_run_registry.py:238-686 | a step changes a terminal run if and only if it is its owner assigning another `run_id` |
| `RunTheorems.LogIsContiguous` | src/service/redis_run_registry.py:347-350 | the stream is exactly the newest min(`last_event_id`, buffer size) events with their ids; `state_version` is the length of the lifecycle stream, whose last entry is the current status |
| `RunTheorems.PausesAlternate` | src/service/redis_run_registry.py:599-686 | accepted pauses minus accepted responses is 0 or 1, and 1 while waiting |
| `RunTheorems.ResponseAcceptedOnce` | src/service/redis_run_registry.py:644-686 | a response id is accepted once; sent again in any later state it changes nothing and is a replay exactly for the same interaction |
| `RunTheorems.StartIsIdempotent` | src/service/redis_run_registry.py:238-328 | in every later state the same request attaches to the run it started, or takes it over if the lease has expired; it is never refused and never starts another |
| `RunTheorems.AppendIsDurable` | src/service/redis_run_registry.py:333-355 | an appended event stays at its id under its writer's token; its key makes later appends of that writer no-ops answered with that id |
| `RunTheorems.PauseIsDurable` | src/service/redis_run_registry.py:599-638 | the pause event stays in the log; in every later state in which the run waits under the same handle, asking again is a no-op answered with its id |
| `RunTheorems.CommitIsFinal` | src/service/redis_run_registry.py:446-488 | status and outcome of a committed transition are those of every later state, and nothing is appended after it |
| `RunTheorems.CancelIsFinal` | src/service/redis_run_registry.py:494-541 | a cancelled run keeps its result, carries the next token, and a stream's log ends with error and `[DONE]` under it, for good |
| `AuditTrail.StepWrites` | src/service/redis_run_registry.py:238-686 | every script that adds a lifecycle entry writes exactly one report with its status and the run's owner and token; no other script writes a report |
| `AuditTrail.OutboxTellsLifecycle` | src/service/redis_run_registry.py:238-686 | in every reachable state the outbox reports on a run since its acceptance are its lifecycle, entry by entry and each of the right type, and the last one names the current owner and token |
| `AuditTrail.StreamEventsCounted` | src/service/redis_run_registry.py:333-638 | the outbox holds exactly one stream event per accepted event that is to be audited, and none for anything else |
| `IndexInvariants.IndexStep` | src/service/redis_run_registry.py:283-675 | every script keeps the row of every run in both sorted sets |
| `IndexInvariants.IndexReachable` | src/service/redis_run_registry.py:283-675 | in every reachable state `active` is exactly the pending runs scored by their lease, a running run has that score in `running`, positive scores in `running` are running runs |
| `IndexInvariants.CountReachable` | src/service/redis_run_registry.py:283-675 | per-status counters sum to `retained`; each is at least the number of runs in its status, and exact for non-terminal ones |
| `IndexInvariants.GaugesAreExact` | src/service/redis_run_registry.py:1245-1267 | `running` counts the running runs with a live lease, `active - running` exactly the live queued ones |
| `IndexInvariants.CapacityHolds` | src/service/redis_run_registry.py:360-416 | never more than `max_concurrent` live running leases, if leases are renewed only before they expire and the limit is shared |
| `IndexInvariants.LateHeartbeatAddsOne` | src/service/redis_run_registry.py:399-416 | a heartbeat adds a live running run if and only if it revives an expired lease of a running run |
| `IndexInvariants.LimitExceededIff` | src/service/redis_run_registry.py:360-416 | with a shared limit, a step exceeds it if and only if it is a heartbeat reviving an expired lease of a running run while the limit is used up |
| `IndexInvariants.LimitCanBeExceeded` | src/service/redis_run_registry.py:360-416 | an interleaving with limit 1 and two live running runs |
| `Executor.NextKeeps` | src/service/redis_run_registry.py:1276-1417 | every step of every executor and of the rest of the system keeps the executor invariant |
| `Executor.TerminalStreamHasDone` | src/service/redis_run_registry.py:1276-1417 | over all interleavings of executors, takeovers, pauses, resumes, timeouts, crashes and cancels, a terminal stream run has a `[DONE]` under its final token in its log |
| `Executor.HandlerCommits` | src/service/redis_run_registry.py:1583-1607 | an uninterrupted except clause of the owner of a pending run ends it with the clause's status and outcome; a stream's log gets the error and then the marker, each unless known already |
| `Executor.ReturnCommits` | src/service/redis_run_registry.py:1276-1330 | an uninterrupted return of the owner of a pending run ends it as failed if its stream was marked as failed and as completed otherwise, with the returned outcome; a stream's log gets the marker unless it is known already |
| `Executor.FailedStreamFails` | src/service/redis_run_registry.py:1276-1330 | an interleaving from the empty store in which a run marked as failed ends as failed although its producer returns |
| `Executor.PowerlessForGood` | src/service/redis_run_registry.py:1276-1417 | an executor that is done or superseded, or whose run is terminal, or that is about to find it waiting, changes nothing any more by itself |
| `Executor.MarkerIsLastIff` | src/service/redis_run_registry.py:446-541 | the step that ends a stream run, whoever interfered before it, leaves its marker last if and only if it is a cancellation or the log ended with the marker already |
| `Executor.TerminalEndsWithDoneIff` | src/service/redis_run_registry.py:1276-1417 | for every terminal stream run of every interleaving there is the step that ended it, and the run ends with its marker if and only if that step was a cancellation or found it last |
| `Executor.MarkerIsLastAfterError` | src/service/redis_run_registry.py:1583-1607 | after an uninterrupted except clause the run ends with its marker if and only if the clause writes it, or its error was recorded before and the marker was last |
| `Executor.MarkerIsLastAfterReturn` | src/service/redis_run_registry.py:1276-1417 | after an uninterrupted normal return the run ends with its marker if and only if the executor writes it now or it was last already |
| `Executor.BuriedByTimeout` | src/service/redis_run_registry.py:1276-1417 | an interleaving from the empty store: the producer's own `[DONE]`, then a timeout; the terminal run does not end with its marker |
| `Executor.BuriedByLostReply` | src/service/redis_run_registry.py:1276-1417 | likewise with an interruption while the executor's own `[DONE]` is being appended |
| `Executor.BuriedByProducer` | src/service/redis_run_registry.py:1276-1417 | likewise with an event the producer appends behind its own `[DONE]` |
| `Executor.BuriedByPause` | src/service/redis_run_registry.py:1276-1417 | likewise with a pause between the executor's own `[DONE]` and its commit |
| `Subscriber.VerdictIsFinal` | src/service/redis_run_registry.py:103-133 | deliver and skip verdicts on fenced events never change later; a delivered marker stays the last event of a terminal run |
| `Subscriber.BuriedMarkersAreSkipped` | src/service/redis_run_registry.py:103-133 | in a terminal run a fenced marker is delivered exactly when it is the last event and carries the final token |
| `Subscriber.OpeningGapIsExact` | src/service/redis_run_registry.py:999-1021 | on a fixed state a gap is reported if and only if the cursor is ahead or event cursor+1 has been trimmed; the gap frame passes the client's filter |
| `Subscriber.GapWithoutTrimming` | src/service/redis_run_registry.py:1705-1717 | with nothing trimmed, the two reads report a gap if and only if the first event arrives between them |
| `Subscriber.GapIsSpuriousIff` | src/service/redis_run_registry.py:1705-1717 | a reported gap is wrong if and only if the log was empty at the first read and its first event is there at the second |
| `Subscriber.FirstEventLooksLikeAGap` | src/service/redis_run_registry.py:1705-1717 | that happens on a fresh run |
| `Subscriber.ReadIsConsecutive` | src/service/redis_run_registry.py:1037-1075 | a read returns consecutive events of the log behind the cursor, and continues it without a hole if and only if nothing behind the cursor has been trimmed |
| `Client.InvStep` | src/service/redis_run_registry.py:987-1096 | every step of run, subscriber, wire and client, reads after trimming included, keeps the delivery invariant relative to what reads have passed over |
| `Client.HandledExactlyOnce` | frontend/components/chat-console.tsx:1077-1132 | over any disconnects and reconnects every event after the starting cursor is handled once and in order, except stale markers and events a read passed over; a handled marker is the last event of a terminal run |
| `Client.SentExactlyOnce` | src/service/redis_run_registry.py:1037-1096 | the same of everything sent, received or not |
| `Client.OneMarker` | src/service/redis_run_registry.py:1037-1096 | whatever is trimmed, at most one marker is ever sent, and then the run is terminal and the marker is its last event |
| `Client.PassesOverIff` | src/service/redis_run_registry.py:1037-1075 | a read passes over an event if and only if it returns entries after the one behind the cursor was trimmed |
| `Client.NothingMissed` | src/service/redis_run_registry.py:1037-1096 | as long as no read does that, nothing is missed |
| `Client.TerminalEndIsComplete` | src/service/redis_run_registry.py:1037-1096 | when a subscription ends on a terminal run and all frames have arrived, only what reads passed over and stale markers are missing; a final marker is not |
| `Client.ReadPassesOver` | src/service/redis_run_registry.py:1037-1075 | a read that returns entries sends no gap frame; its first entry is delivered, skipped or waited for, and is the event behind the cursor if and only if that had not been trimmed |
| `Client.IdlePollReports` | src/service/redis_run_registry.py:1076-1096 | a poll that returns nothing reports a gap if and only if the event behind the cursor has been trimmed |
| `Client.LostForGood` | frontend/components/chat-console.tsx:1113-1128 | an event the client's cursor has passed unhandled is never handled later |
| `Client.EventLostSilently` | src/service/redis_run_registry.py:1037-1075 | a trace with room for one event: the client handles event 2, never event 1, and is told of no gap |
| `Delivery.OneEntry` | src/service/redis_run_registry.py:103-133 | an entry of a batch is held if it is a marker under the current token of a run that has not ended, and otherwise passed, and sent if it is no marker or closes the run |
| `Delivery.ReadIsSent` | src/service/redis_run_registry.py:1037-1075 | an event that is no marker, fenced or not, is on the wire three steps after the read that returns it |
| `Delivery.Drains` | src/service/redis_run_registry.py:1026-1096 | on a run that stands still the subscriber comes to rest in finitely many steps, at the end of the log, before a marker the run must close first, or with a gap frame if nothing is retained; everything due up to there has been sent, once and in order |
| `Delivery.HeldGoesRound` | src/service/redis_run_registry.py:1044-1074 | before such a marker it goes round without sending anything |
| `Delivery.OpeningReportsIff` | src/service/redis_run_registry.py:999-1021 | the opening checks send a gap frame if and only if the cursor is ahead or its next event has been trimmed |
| `Delivery.ReceivesAll` | frontend/components/chat-console.tsx:1113-1128 | the client handles every frame above its cursor, in order |
| `Delivery.ConnectedClientGetsAll` | frontend/components/chat-console.tsx:1077-1132 | a client that connects with nothing trimmed behind its cursor to a run that stands still handles exactly what is due |
| `WaitTerminal.NoLostWakeUp` | src/service/redis_run_registry.py:1141-1176 | a waiter that blocks although the run has become terminal has the terminal entry ahead of its cursor; it only returns the status the run ended with |
| `WaitTerminal.ReturnsInTwo` | src/service/redis_run_registry.py:1149-1171 | on a run that has ended the waiter returns its status after at most two polls |
| `WaitTerminal.KeepsWaiting` | src/service/redis_run_registry.py:1149-1171 | and not before |
| `MemoryRegistry.Registry.CountPending` | src/service/run_registry.py:213-216 | the loop over records counts exactly the pending ones |
| `MemoryRegistry.Registry.StartRun` | src/service/run_registry.py:194-241 | accept, existing, conflict, access and overload; all records |
| `MemoryRegistry.Registry.PauseRun` | src/service/run_registry.py:243-282 | size refusal, accept with the question logged, existing, conflict and invalid transition; all records |
| `MemoryRegistry.Registry.ResumeRun` | src/service/run_registry.py:284-335 | accept with errors cleared and a new generation, replay, conflict, access and invalid transition; all records |
| `MemoryRegistry.Registry.AppendEvent` | src/service/run_registry.py:402-429 | refusal of `[DONE]` while waiting, dedupe by key, replacement of an oversize payload, the bounded deque; all records |
| `MemoryRegistry.OversizeIsReplaced` | src/service/run_registry.py:412-429 | an oversize payload is never logged: its replacement is, under the next id, and the stream is marked as failed with the error |
| `Simulation.StartAgrees` | src/service/redis_run_registry.py:238-328 | while no lease has expired, Redis and in-memory `start` decide alike and leave the same records |
| `Simulation.PauseAgrees` | src/service/redis_run_registry.py:872-929 | a pause by the current executor decides alike and leaves the same records, logs included |
| `Simulation.ResumeAgrees` | src/service/redis_run_registry.py:644-686 | `resume` decides alike and leaves the same records, in every state |
| `Simulation.AppendAgrees` | src/service/redis_run_registry.py:333-355 | an append by the current executor of a run that has not ended is answered alike, with the same id, and leaves the same log |
| `Simulation.RepeatedStartAgreesIff` | src/service/redis_run_registry.py:262-297 | a repeated start decides alike if and only if it is not a permitted takeover of an expired lease |
| `Simulation.FirstStartAgreesIff` | src/service/redis_run_registry.py:298-320 | a first start decides alike if and only if it does not owe its room to runs with expired leases |
| `Simulation.Simulates` | src/service/run_registry.py:194-335 | every state reached while no lease expires stands for the records of an in-memory registry given the same calls |
| `Simulation.SameDecisions` | src/service/run_registry.py:194-335 | same decisions of `start`, `resume` and `pause_for_input` at every point of such a run |
| `Simulation.LeasesCanHold` | src/service/run_registry.py:194-241 | there are such runs: one is started, gets its slot and works for a while |
| `Simulation.SameLog` | src/service/run_registry.py:402-429 | same retained events under the same ids, and same answers to appends, at every point of such a run |
| `Simulation.RecordsHold` | src/service/run_registry.py:194-429 | in every state of the in-memory registry a record's deque holds its newest events under consecutive ids, its keys name past events, and there is one generation per accepted response and one to begin with |
| `SseParser.Parser.ParseBlock` | frontend/lib/sse.ts:51-78 | the line loop computes the block's event and the new last event id |
| `SseParser.BlockMeans` | frontend/lib/sse.ts:51-78 | data lines add up in order; the last `event`, the last `id` without NUL and the last numeric `retry` count |
| `SseParser.EventIff` | frontend/lib/sse.ts:76-77 | a block is an event if and only if it has a data line or a numeric retry |
| `SseParser.FieldMeans` | frontend/lib/sse.ts:58-62 | a field is what precedes the first colon, its value what follows without one space |
| `SseParser.NormMeans` | frontend/lib/sse.ts:19-19 | no CR is left, and a text without one stays as it is |
| `SseParser.Parser.Drain` | frontend/lib/sse.ts:31-49 | removes all complete blocks and, when flushing, the unterminated one |
| `SseParser.Parser.Feed` | frontend/lib/sse.ts:14-21 | the events returned so far are those of the whole text fed so far, however it was cut |
| `SseParser.Parser.Finish` | frontend/lib/sse.ts:23-29 | completes them to the events of the whole text |
| `SseParser.NormConcat` | frontend/lib/sse.ts:14-21 | line endings normalise piecewise as long as no CR is separated from its LF |
| `SseParser.DrainedConcat` | frontend/lib/sse.ts:31-49 | draining is incremental: what was drained early need not be seen again |
| `SseParser.ReadSseStream` | frontend/lib/sse.ts:81-104 | the events depend on the text alone, not on the chunks, including a CRLF that is split |
| `SsePrinter.AddEventId` | src/service/sse.py:8-18 | the loop rewrites the first JSON data line in place and no other |
| `SsePrinter.FormatBufferedSse` | src/service/sse.py:6-20 | the printed frame is the one specified |
| `SsePrinter.DataFrame` | src/service/sse.py:6-20 | a single-line data event prints as its id line, its data line and a blank line |
| `SsePrinter.RoundTrip` | src/service/sse.py:6-20 | printing any single-line data events with heartbeats between them and parsing gives back one event per data event, in order, whose id is its decimal number and whose data is what was printed |
| `SsePrinter.DigitsValue` | src/service/sse.py:20-20 | a printed id is read as the number it is and has no leading zero |
| `SsePrinter.DigitsOfTwelve` | src/service/sse.py:20-20 | it is decimal, most significant digit first |
| `SsePrinter.BlockRoundTrip` | frontend/lib/sse.ts:51-78 | a block with any name, id, retry time and data lines comes back as that event, its data lines joined by newlines |
| `SsePrinter.UnterminatedIsFlushed` | frontend/lib/sse.ts:43-47 | a last block without its blank line is read like any other |
| `SsePrinter.RewrittenMeans` | src/service/sse.py:8-18 | for any payload, only the first data line other than `[DONE]` can change, to what the injection makes of it |
| `SsePrinter.SplitLinesMeans` | src/service/sse.py:7-7 | no line contains a line break, and a text without one is one line |
| `SsePrinter.StripMeans` | src/service/sse.py:19-19 | only newlines at the end are dropped, and all of them |
| `LockTable.Slots.RegisterUser` | src/service/run_coordination.py:42-47 | finds or creates the slot of a key and counts the user |
| `LockTable.Slots.DropSlotUser` | src/service/run_coordination.py:22-30 | uncounts the user; the last one deletes the entry if it is still this slot |
| `LockTable.NextKeeps` | src/service/run_coordination.py:22-58 | every step of every task keeps: live tasks' slots are the mapped ones, users are counted at least, locks know their holder |
| `LockTable.MutualExclusion` | src/service/run_coordination.py:33-58 | at most one task holds the lock of a key, over deletions and re-creations of its slot |
| `LockTable.LiveSlotIsMapped` | src/service/run_coordination.py:22-58 | a live task's slot is the mapped one and `users` is at least the number of tasks on it |
| `LockTable.FreeLockIsTaken` | src/service/run_coordination.py:48-58 | a waiting task takes a free lock and no other, a holder that releases frees it, a cancelled waiter leaves, and a drop uncounts one user |
| `LockTable.EnteringWaits` | src/service/run_coordination.py:42-47 | a task that enters waits on the mapped slot of its key, a new one only if there is none |
| `LockTable.AbandonDecides` | src/service/run_coordination.py:22-58 | without an abandoned task users are counted exactly; after one some entry stays overcounted for good |
| `LockTable.NoLeakIff` | src/service/run_coordination.py:22-58 | once no task is left, the table is empty if and only if no task was abandoned while dropping its slot |
| `LockTable.AbandonLeaks` | src/service/run_coordination.py:22-30 | one task, cancelled while waiting and again while dropping, leaves its entry behind |
| `EventPublisher.Channel.PublishScript` | src/service/durable_event_stream.py:61-82 | the script, command by command, has the specified effect on stream, hash and sorted set |
| `EventPublisher.Forget` | src/service/durable_event_stream.py:71-77 | removes exactly the expired record ids from the hash |
| `EventPublisher.IndexMatchesStream` | src/service/durable_event_stream.py:61-82 | after any publishes with an increasing clock: at most `maxlen` entries, no record twice, hash, sorted set and stream hold the same records |
| `EventPublisher.RepublishIsIdempotent` | src/service/durable_event_stream.py:61-64 | publishing a retained record again returns its stream id and adds nothing |
| `EventPublisher.PublishIsRead` | src/service/durable_event_stream.py:61-82 | a new record is appended with its payload under the id returned, and only the oldest entries make room |
| `EventPublisher.PublishAgreesIff` | src/service/durable_event_stream.py:61-82 | for any clock, a publish keeps hash, sorted set and stream on the same records if and only if there is room or the lowest rank is the oldest entry and the new record is not ranked below it |
| `EventPublisher.AlignmentSurvivesIff` | src/service/durable_event_stream.py:61-82 | ranks go on matching the stream order if and only if the new record is ranked last |
| `EventPublisher.EqualClockForgetsNewest` | src/service/durable_event_stream.py:61-82 | two publishes in one instant with room for one: the newest record is in the stream and not in the index, and publishing it again gives another stream id |
| `EventPublisher.EarlierTieForgetsRetained` | src/service/durable_event_stream.py:61-82 | two publishes in one instant with room for both, then a third: the stream and the index drop different records |
| `KafkaRelay.Outbox.PublishOne` | src/service/kafka_relay.py:221-248 | one entry: skipped, raised, or in Kafka and gone from stream and pending list |
| `KafkaRelay.Outbox.PublishBatch` | src/service/kafka_relay.py:219-249 | the loop does what the step machine does; each success removes one pending entry |
| `KafkaRelay.Outbox.PublishEntries` | src/service/kafka_relay.py:219-249 | with a shutdown in between: it raises if and only if Kafka rejects an entry or takes one that is not pending any more; otherwise exactly the decodable entries moved from the stream to Kafka |
| `KafkaRelay.Reachable` | src/service/kafka_relay.py:148-249 | the placement invariant of every entry holds over any steps of any relays |
| `KafkaRelay.NothingIsLost` | src/service/kafka_relay.py:148-249 | over crashes, retries and reclaims an entry is in the stream or acknowledged by Kafka; one in the stream can still be read or reclaimed; a malformed one is never removed |
| `KafkaRelay.EntryReachesKafka` | src/service/kafka_relay.py:206-249 | an idle relay can reclaim any decodable entry that was delivered and is still in the stream, and take it to Kafka in two more steps |
| `KafkaRelay.UnreadIsRead` | src/service/kafka_relay.py:163-171 | an unread entry becomes pending for the relay that reads it |
| `UiSnapshot.BuildUiSnapshot` | src/service/run_ui_snapshot.py:209-443 | the row loop and the close-out compute the specified projection, delivery summary and recent events included |
| `UiSnapshot.WorstMeans` | src/service/run_ui_snapshot.py:199-206 | the delivery status is one of the values present and none is more severe; absent only if all are |
| `UiSnapshot.WorstOrder` | src/service/run_ui_snapshot.py:199-206 | a blocked execution outweighs everything, and the delivery is ready only if all agree |
| `UiSnapshot.UniqueMeans` | src/service/run_ui_snapshot.py:404-421 | every error appears once, in the order of first occurrence |
| `UiSnapshot.RoleUpdate` | src/service/run_ui_snapshot.py:313-341 | a workflow event sets its role from that event alone and no other role |
| `UiSnapshot.RoleShowsLastEvent` | src/service/run_ui_snapshot.py:313-331 | a role shows status, phase and id of its last workflow event |
| `UiSnapshot.SilentRoleIsWaiting` | src/service/run_ui_snapshot.py:225-234 | a role without a workflow event is waiting if it is a standard one, and absent otherwise |
| `UiSnapshot.StandardRolesWait` | src/service/run_ui_snapshot.py:225-234 | the five standard roles are there from the start, waiting |
| `UiSnapshot.SupervisorCloses` | src/service/run_ui_snapshot.py:422-429 | the snapshot shows the roles as projected, except that a running supervisor is completed once the run has ended and a manifest exists |
| `UiSnapshot.FieldsUpto` | src/service/run_ui_snapshot.py:300-385 | pipeline status and each figure, current role and phase, report and manifest are those of the last event that carries one |
| `UiSnapshot.DerivedMeans` | src/service/run_ui_snapshot.py:355-372 | how the figures of a pipeline event are completed from its detail text |
| `UiSnapshot.RecentMeans` | src/service/run_ui_snapshot.py:283-403 | every application event adds one recent entry with its own fields, in order |
| `UiSnapshot.AnswerIff` | src/service/run_ui_snapshot.py:258-282 | a row answers the hardware tool if and only if the row directly before it announces the same call |
| `UiSnapshot.ToolMeans` | src/service/run_ui_snapshot.py:265-278 | errors of all answers in order, delivery status of the last answer that has one |
| `UiSnapshot.ReviewerIsRole` | src/service/run_ui_snapshot.py:332-341 | the reviewer's own entry is the reviewer's role |
| `UiSnapshot.SnapshotShows` | src/service/run_ui_snapshot.py:404-443 | everything else a snapshot of a log shows: coverage, pipeline with its close-out, delivery summary, and the newest recent events up to the limit |
| `UiSnapshot.WindowAgreesIff` | src/service/run_ui_snapshot.py:220-429 | exactly when the snapshot of a retained suffix agrees with that of the whole log on a role that last moved in row i: i is behind the first retained row, or is that row and read alone says the same; up to the close-out of a running supervisor by a manifest that only the whole log publishes |
| `UiSnapshot.SilentWindowAgreesIff` | src/service/run_ui_snapshot.py:220-429 | a role that never moved agrees if and only if the first retained row, read alone, does not move it |
| `UiSnapshot.WindowAgrees` | src/service/run_ui_snapshot.py:220-429 | in particular every role that moved behind the first retained row agrees |
| `UiSnapshot.FirstRowOfWindowCanDiffer` | src/service/run_ui_snapshot.py:134-183 | a tool answer as the first retained row is lost |
| `UiSnapshot.SnapshotForgetsOrder` | src/service/run_ui_snapshot.py:220-340 | for rows with distinct ids the snapshot does not depend on their order |
| `CandidateAggregation.AggregateCandidates` | src/evolution/collector.py:188-256 | both loops of the aggregation compute the specified candidates |
| `CandidateAggregation.FoldMeans` | src/evolution/collector.py:202-220 | the fold leaves one non-empty group per project, holding the qualifying observations since its last resolution |
| `CandidateAggregation.WantedMeans` | src/evolution/collector.py:202-220 | those are the qualifying observations with no later resolution by the same project, without repeats |
| `CandidateAggregation.LastRepresents` | src/evolution/collector.py:223-227 | the representative is the newest observation of the project whose unresolved streak began last |
| `CandidateAggregation.AggregateMeans` | src/evolution/collector.py:188-256 | for observations with distinct sort keys: a gap has a candidate exactly when something is unresolved; evidence, counts, representative and eligibility are the declared ones; candidates are sorted by gap |
| `CandidateAggregation.AggregateForgetsOrder` | src/evolution/collector.py:195-199 | for observations with distinct sort keys the result does not depend on their order |
| `CandidateAggregation.RulesAre` | src/evolution/collector.py:202-219 | which observations qualify, which resolve, and which belong to a gap |
| `CandidateAggregation.RefusedBelowTwo` | src/evolution/collector.py:195-196 | a minimum below two is refused, and no other |
| `Sorting.SortForgetsOrder` | src/evolution/collector.py:195-199 | sorting items with distinct keys does not depend on their order |

## Left out

- HTTP and gRPC endpoints, the gateway between `subscribe` and the browser, authentication, model and graph execution, settings and telemetry: plumbing. The client model reads the frames of `subscribe` directly, and counts a received `[DONE]` as handled.
- JSON text, payload decoding, status, role and detail classifiers and the allowlists of `_hardware_tool_result` and `_safe_artifacts`: rows and events enter decoded. `SsePrinter` takes the JSON rewriting of a data line as a parameter, required to yield no line break.
- Timestamps, digests and the detailed fields of audit entries: an audit entry is its kind, run, status, owner and token.
- The size limit of the Redis `append_event`: an oversize event is a `mark_stream_failed` and an append of an error payload, both of which are modelled as steps.
- Retention: expiry of a terminal run is a step that may happen at any time; there are no durations. Counters are never decremented on expiry, as in the source.
- `subscribe`, `cancel` and `_execute` of the in-memory registry, its result, HTTP status and `terminal_event_emitted`: `MemoryRegistry` covers `start`, `pause_for_input`, `resume` and `append_event`; what an executor or a cancellation does to status, error and log is replayed as given.
- Asyncio timing, cancellation watch, slot polling and the lease loop: an executor may raise in any state of its try body, may lose the reply of a script that took effect, may die anywhere, and acquire, heartbeat and release may happen at any time with any handle.
- The bound on reconnects, back-off delays, switching threads and the stop at a request for human input in the client: it may connect and disconnect at will.
- `decode_event_stream_response` and `RedisEventReader`, key names, the workflow stream's expiry: not part of this model.
- The PostgreSQL advisory lock, and `scoped_checkpoint_thread_id`: only the process-local table is modelled.
- The relay's timers, batch sizes and claim cursor: it may read or reclaim any permitted batch at any time.
- `candidate_id` hashing and the sorted id lists of a candidate: the evidence set determines them.
- JavaScript's rounding of a very long `retry` value, and code units against code points: strings are sequences of characters.
- WaitTerminal.NoLostWakeUp: the terminal entry is in the very next read only if at most 32 entries are unread, because that is how many one read returns; before that the read still returns unread entries at once.
- Client.HandledExactlyOnce: an unfenced `[DONE]`, which only a pause could write, counts as stale without a verdict, because whether it is skipped depends on the moment.
- IndexInvariants.CapacityHolds: assumes that leases are renewed before they expire and that all instances share the limit; `IndexInvariants.LimitExceededIff` says which step breaks it otherwise.
- UiSnapshot.WindowAgreesIff: covers role status, phase and last event id; pipeline figures, recent events, report and delivery summary may depend on trimmed rows.
- Simulation.Simulates: assumes that no lease expires and that only pauses write `interaction:` keys, as in the source.
- Executor.TerminalStreamHasDone: one incarnation per run, so without the expiry step.
