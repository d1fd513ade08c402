/** Delivery goes on: on a run that stands still, a subscriber gets through the whole log, sends
    exactly what is due and stops where it has to, and the client handles all of it. */
module Delivery {
  import opened RunTypes
  import opened RedisScripts
  import opened RunInvariants
  import RunTheorems
  import opened Subscriber
  import opened Client

  /** What a client has to get: everything that is not a marker, and the marker that closes the run. */
  predicate Due(r: Run, i: nat)
    requires 1 <= i <= |r.history|
  {
    var e := r.history[i - 1];
    !e.payload.isDone || (r.status.Terminal() && i == |r.history| && (e.fence == None || e.fence == Some(r.fence)))
  }

  predicate Trimmed(r: Run, i: nat) {
    i <= r.lastEventId - |r.entries|
  }

  /** The events due in (a, b] that have not been trimmed, in order. */
  function DueIds(r: Run, a: nat, b: nat): seq<nat>
    requires b <= |r.history| || b <= a
  {
    if b <= a then [] else DueIds(r, a, b - 1) + if Trimmed(r, b) || !Due(r, b) then [] else [b]
  }

  lemma {:induction false} DueConcat(r: Run, a: nat, b: nat, c: nat)
    requires a <= b <= c <= |r.history|
    ensures DueIds(r, a, c) == DueIds(r, a, b) + DueIds(r, b, c)
    decreases c
  {
    hide Due, Trimmed;
    if c == b {
      assert DueIds(r, b, c) == [];
    } else {
      DueConcat(r, a, b, c - 1);
    }
  }

  /** Going from a to the next retained event b: what lies between has been trimmed. */
  lemma {:induction false} DueNext(r: Run, a: nat, b: nat)
    requires a < b <= |r.history| && (forall i :: a < i < b ==> Trimmed(r, i)) && !Trimmed(r, b)
    ensures DueIds(r, a, b) == if Due(r, b) then [b] else []
  {
    hide Due, Trimmed;
    NoneDue(r, a, b - 1);
  }

  lemma {:induction false} NoneDue(r: Run, a: nat, b: nat)
    requires a <= b <= |r.history| && forall i :: a < i <= b ==> Trimmed(r, i)
    ensures DueIds(r, a, b) == []
    decreases b
  {
    hide Due, Trimmed;
    if b == a {
    } else {
      NoneDue(r, a, b - 1);
      assert Trimmed(r, b);
    }
  }

  /** The next event is a marker under the current token of a run that has not ended. */
  predicate Held(r: Run, c: nat) {
    && !r.status.Terminal()
    && exists i :: c < i <= |r.history| && NextRetained(r, c, i)
         && r.history[i - 1].payload.isDone && r.history[i - 1].fence == Some(r.fence)
  }

  predicate NextRetained(r: Run, c: nat, i: nat) {
    c < i && !Trimmed(r, i) && forall j :: c < j < i ==> Trimmed(r, j)
  }

  /** The subscriber's next n steps while the run stands still; no poll times out. */
  function Still(w: World, n: nat): World {
    if n == 0 then w else Next(Still(w, n - 1), Advance(false))
  }

  lemma {:induction false} StillMore(w: World, n: nat, m: nat)
    ensures Still(w, n + m) == Still(Still(w, n), m)
    decreases m
  {
    hide Next;
    if m == 0 {
    } else {
      StillMore(w, n, m - 1);
    }
  }

  lemma StillOne(w: World)
    ensures Still(w, 1) == Next(w, Advance(false)) && Still(w, 0) == w
  {
    hide Next;
    assert Still(w, 0) == w;
  }

  // ----- one entry

  ghost predicate Entries(r: Run, cursor: nat, batch: seq<Entry>) {
    batch != [] ==>
      && NextRetained(r, cursor, batch[0].id) && Consecutive(batch, batch[0].id - 1, r.history)
      && (forall i :: 0 <= i < |batch| ==> batch[i].id == batch[0].id + i && !Trimmed(r, batch[i].id))
  }

  /** An entry is held, or passed and sent if it is due. */
  lemma OneEntry(w: World, sub: Sub)
    requires RunInv(w.run) && w.sub == Some(sub) && sub.pc == Delivering && sub.snap == Some(w.run)
    requires sub.batch != [] && Entries(w.run, sub.cursor, sub.batch)
    ensures var r, id, w' := w.run, sub.batch[0].id, Next(w, Advance(false));
            && 1 <= id <= |r.history| && w'.client == w.client && w'.run == r && w'.gapSent == w.gapSent
            && (if !r.status.Terminal() && r.history[id - 1].payload.isDone && r.history[id - 1].fence == Some(r.fence)
                then w' == SetSub(w, sub.(pc := Bottom, batch := [])) && Held(r, sub.cursor)
                else w' == SetSub(w, sub.(cursor := id, batch := sub.batch[1..]))
                           .(wire := w.wire + if Due(r, id) then [id] else []))
  {
    hide RunInv;
    RunTheorems.LogLength(w.run);
    var id := sub.batch[0].id;
    assert sub.batch[0] == Entry(id, w.run.history[id - 1]);
    assert w.wire + [] == w.wire;
  }

  lemma EntriesTail(r: Run, cursor: nat, batch: seq<Entry>)
    requires batch != [] && Entries(r, cursor, batch)
    ensures Entries(r, batch[0].id, batch[1..])
    ensures |batch| > 1 ==> batch[1..][0].id == batch[0].id + 1
  {
    hide Trimmed;
    var rest, id := batch[1..], batch[0].id;
    if rest != [] {
      assert rest[0] == batch[1] && rest[0].id == id + 1;
      forall i | 0 <= i < |rest| ensures rest[i] == Entry(id + 1 + i, r.history[id + i]) {
        assert rest[i] == batch[i + 1];
      }
    }
  }

  // ----- a batch

  /** What a number of steps has done: everything due up to the cursor has been sent, in order. */
  ghost predicate Sent(w: World, sub: Sub, end: World) {
    && end.run == w.run && end.client == w.client && end.gapSent == w.gapSent && end.sub.Some?
    && sub.cursor <= end.sub.value.cursor <= |w.run.history|
    && end.wire == w.wire + DueIds(w.run, sub.cursor, end.sub.value.cursor)
  }

  lemma SentTrans(w: World, sub: Sub, mid: World, end: World)
    requires Sent(w, sub, mid) && Sent(mid, mid.sub.value, end)
    ensures Sent(w, sub, end)
  {
    hide DueIds;
    DueConcat(w.run, sub.cursor, mid.sub.value.cursor, end.sub.value.cursor);
  }

  lemma {:induction false} BatchDrains(w: World, sub: Sub) returns (n: nat)
    requires RunInv(w.run) && w.sub == Some(sub) && sub.pc == Delivering && sub.snap == Some(w.run)
    requires Entries(w.run, sub.cursor, sub.batch) && sub.cursor <= |w.run.history|
    ensures var end := Still(w, n);
            && Sent(w, sub, end) && end.sub.value.pc == Bottom
            && (sub.batch != [] ==> end.sub.value.cursor > sub.cursor || Held(w.run, end.sub.value.cursor))
    decreases |sub.batch|
  {
    hide RunInv, Still, DueIds, Held, Entries, Due, Next;
    if sub.batch == [] {
      n := 1;
      StillOne(w);
      EmptyBatch(w, sub);
    } else {
      var w1 := Next(w, Advance(false));
      OneEntry(w, sub);
      StillOne(w);
      if w1.sub.value.pc == Bottom {
        n := 1;
        SentNothing(w, sub, w1);
      } else {
        EntriesTail(w.run, sub.cursor, sub.batch);
        SentOne(w, sub, w1);
        var m := BatchDrains(w1, w1.sub.value);
        n := 1 + m;
        StillMore(w, 1, m);
        SentTrans(w, sub, w1, Still(w, n));
      }
    }
  }

  lemma EmptyBatch(w: World, sub: Sub)
    requires w.sub == Some(sub) && sub.pc == Delivering && sub.batch == [] && sub.cursor <= |w.run.history|
    ensures var end := Next(w, Advance(false)); Sent(w, sub, end) && end.sub.value.pc == Bottom
  {
    assert DueIds(w.run, sub.cursor, sub.cursor) == [];
  }

  lemma SentNothing(w: World, sub: Sub, end: World)
    requires w.sub == Some(sub) && sub.cursor <= |w.run.history|
    requires end.sub.Some? && end.sub.value.cursor == sub.cursor && end == w.(sub := end.sub)
    ensures Sent(w, sub, end)
  {
    assert DueIds(w.run, sub.cursor, sub.cursor) == [];
  }

  lemma SentOne(w: World, sub: Sub, end: World)
    requires sub.batch != [] && Entries(w.run, sub.cursor, sub.batch) && sub.batch[0].id <= |w.run.history|
    requires 1 <= sub.batch[0].id && w.sub == Some(sub)
    requires end == SetSub(w, sub.(cursor := sub.batch[0].id, batch := sub.batch[1..]))
                    .(wire := w.wire + if Due(w.run, sub.batch[0].id) then [sub.batch[0].id] else [])
    ensures Sent(w, sub, end) && sub.cursor < end.sub.value.cursor
  {
    hide Due, Trimmed, DueIds;
    DueNext(w.run, sub.cursor, sub.batch[0].id);
  }

  // ----- the whole log

  /** Where the subscriber comes to rest: at the end of the log of a run that waits or has ended; at
      the end of the log, polling, while the run goes on; before a marker that the run must close
      first; or with a gap frame, if nothing at all is retained. */
  ghost predicate AtRest(w: World) {
    && w.sub.Some?
    && var sub, r := w.sub.value, w.run;
       || (sub.pc == EndedTerminal && r.status.Terminal() && sub.cursor == |r.history|)
       || (sub.pc == Ended && r.status == WaitingForInput && sub.cursor == |r.history|)
       || (sub.pc == Read && r.status.Pending() && sub.cursor == |r.history|)
       || (sub.pc == Top && Held(r, sub.cursor))
       || (sub.pc == Ended && w.gapSent && r.entries == [] && sub.cursor < |r.history|)
  }

  lemma NewBatch(w: World, sub: Sub)
    requires RunInv(w.run) && w.sub == Some(sub) && sub.pc == Read && sub.cursor <= w.run.lastEventId
    requires ReadAfter(w.run.entries, sub.cursor) != []
    ensures var w2 := Next(Next(w, Advance(false)), Advance(false));
            && w2.sub.Some? && w2 == w.(sub := w2.sub)
            && w2.sub.value.pc == Delivering && w2.sub.value.cursor == sub.cursor && w2.sub.value.snap == Some(w.run)
            && w2.sub.value.batch != [] && Entries(w.run, sub.cursor, w2.sub.value.batch)
  {
    hide RunInv, ReadAfter, Buffered;
    ReadIsConsecutive(w.run, sub.cursor);
    var batch := ReadAfter(w.run.entries, sub.cursor);
    RetainedBatch(w.run, sub.cursor);
    assert forall i :: 0 <= i < |batch| ==> batch[i] == Entry(batch[0].id + i, w.run.history[batch[0].id - 1 + i]);
  }

  lemma RetainedBatch(r: Run, cursor: nat)
    requires RunInv(r) && cursor <= r.lastEventId && ReadAfter(r.entries, cursor) != []
    ensures var batch := ReadAfter(r.entries, cursor);
            && NextRetained(r, cursor, batch[0].id)
            && (forall i :: 0 <= i < |batch| ==> !Trimmed(r, batch[i].id))
  {
    hide RunInv, ReadAfter;
    RunTheorems.Window(r);
    ReadIsSlice(r, cursor);
    var batch := ReadAfter(r.entries, cursor);
    forall i | 0 <= i < |batch| ensures batch[i] == r.entries[Passed(r, cursor) + i] {
      assert batch[i] == r.entries[Passed(r, cursor)..][i];
    }
  }

  /** The top of the loop with something left to read: the next batch gets through. */
  lemma OneRound(w: World, sub: Sub) returns (n: nat)
    requires RunInv(w.run) && w.sub == Some(sub) && sub.pc == Top && sub.cursor < |w.run.history| && w.run.entries != []
    ensures var end := Still(w, n);
            && Sent(w, sub, end) && end.sub.value.pc == Bottom
            && (end.sub.value.cursor > sub.cursor || Held(w.run, end.sub.value.cursor))
  {
    hide RunInv, Still, DueIds, Held, Entries, Due, ReadAfter, Next, Buffered, ReplayGap;
    RunTheorems.LogLength(w.run);
    var w1 := Next(w, Advance(false));
    assert w1 == SetSub(w, sub.(pc := Read)) by { TopReads(w, sub); }
    ReadIsFull(w.run, sub.cursor);
    NewBatch(w1, w1.sub.value);
    var w3 := Next(Next(w1, Advance(false)), Advance(false));
    var m := BatchDrains(w3, w3.sub.value);
    n := 3 + m;
    assert Still(w, 3) == w3 by { StillThree(w); }
    StillMore(w, 3, m);
    SentNothing(w, sub, w3);
    SentTrans(w, sub, w3, Still(w, n));
  }

  lemma TopReads(w: World, sub: Sub)
    requires w.sub == Some(sub) && sub.pc == Top && sub.cursor < w.run.lastEventId
    ensures Next(w, Advance(false)) == SetSub(w, sub.(pc := Read))
  {
  }

  lemma StillThree(w: World)
    ensures Still(w, 3) == Next(Next(Next(w, Advance(false)), Advance(false)), Advance(false))
  {
    hide Next;
    assert Still(w, 1) == Next(Still(w, 0), Advance(false));
    assert Still(w, 2) == Next(Still(w, 1), Advance(false));
  }

  lemma BottomGoes(w: World, sub: Sub)
    requires RunInv(w.run) && w.sub == Some(sub) && sub.pc == Bottom && sub.cursor <= |w.run.history|
    ensures var w' := Next(w, Advance(false));
            && w' == w.(sub := w'.sub) && w'.sub.Some? && w'.sub.value.cursor == sub.cursor
            && (w'.sub.value.pc == Top || AtRest(w'))
            && (w'.sub.value.pc == Top ==> sub.cursor < |w.run.history| || w.run.status.Pending())
  {
    hide RunInv;
    RunTheorems.LogLength(w.run);
  }

  /** On a run that stands still, finitely many steps bring the subscriber to rest, and everything
      due up to where it rests has been sent, once and in order. */
  lemma {:induction false} Drains(w: World, sub: Sub) returns (n: nat)
    requires RunInv(w.run) && w.sub == Some(sub) && sub.pc == Top && sub.cursor <= |w.run.history| && !w.gapSent
    ensures var end := Still(w, n);
            && AtRest(end) && end.run == w.run && end.client == w.client
            && sub.cursor <= end.sub.value.cursor <= |w.run.history|
            && end.wire == w.wire + DueIds(w.run, sub.cursor, end.sub.value.cursor)
    decreases |w.run.history| - sub.cursor
  {
    hide RunInv, Still, DueIds, Held, Due, Next;
    if sub.cursor == |w.run.history| {
      n := 1;
      StillOne(w);
      TopEnds(w, sub);
    } else if w.run.entries == [] {
      n := 4;
      EmptyBufferGap(w, sub);
    } else {
      var m := OneRound(w, sub);
      var w1 := Still(w, m);
      BottomGoes(w1, w1.sub.value);
      var w2 := Next(w1, Advance(false));
      StillMore(w, m, 1);
      StillOne(w1);
      SentNothing(w1, w1.sub.value, w2);
      SentTrans(w, sub, w1, w2);
      if AtRest(w2) {
        n := m + 1;
      } else {
        var l := Drains(w2, w2.sub.value);
        n := m + 1 + l;
        StillMore(w, m + 1, l);
        JoinSent(w, sub, w2, Still(w, n));
      }
    }
  }

  lemma JoinSent(w: World, sub: Sub, mid: World, end: World)
    requires Sent(w, sub, mid) && end.run == mid.run && end.sub.Some?
    requires mid.sub.value.cursor <= end.sub.value.cursor <= |w.run.history|
    requires end.wire == mid.wire + DueIds(w.run, mid.sub.value.cursor, end.sub.value.cursor)
    ensures end.wire == w.wire + DueIds(w.run, sub.cursor, end.sub.value.cursor)
  {
    hide DueIds;
    DueConcat(w.run, sub.cursor, mid.sub.value.cursor, end.sub.value.cursor);
  }

  lemma TopEnds(w: World, sub: Sub)
    requires RunInv(w.run) && w.sub == Some(sub) && sub.pc == Top && sub.cursor == |w.run.history|
    ensures var end := Next(w, Advance(false));
            && AtRest(end) && end == w.(sub := end.sub) && end.sub.value.cursor == sub.cursor
            && end.wire == w.wire + DueIds(w.run, sub.cursor, sub.cursor)
  {
    hide RunInv;
    RunTheorems.LogLength(w.run);
  }

  lemma EmptyBufferGap(w: World, sub: Sub)
    requires RunInv(w.run) && w.sub == Some(sub) && sub.pc == Top && sub.cursor < |w.run.history| && w.run.entries == []
    ensures var end := Still(w, 4);
            && AtRest(end) && end.run == w.run && end.client == w.client && end.sub.value.cursor == sub.cursor
            && end.wire == w.wire + DueIds(w.run, sub.cursor, sub.cursor)
  {
    hide RunInv;
    RunTheorems.LogLength(w.run);
    assert ReadAfter(w.run.entries, sub.cursor) == [];
    StillThree(w);
    var w1 := Next(w, Advance(false));
    assert w1 == SetSub(w, sub.(pc := Read));
    var w2 := Next(w1, Advance(false));
    assert w2 == SetSub(w, sub.(pc := Gap1));
    var w3 := Next(w2, Advance(false));
    assert w3 == SetSub(w, sub.(pc := Gap2));
    assert Still(w, 4) == Next(Still(w, 3), Advance(false));
  }

  /** In particular an event that is no marker is sent as soon as it is read: three steps after the
      read its id is on the wire, fenced or not. */
  lemma ReadIsSent(w: World, sub: Sub)
    requires RunInv(w.run) && w.sub == Some(sub) && sub.pc == Read && sub.cursor <= w.run.lastEventId
    requires ReadAfter(w.run.entries, sub.cursor) != []
    requires !ReadAfter(w.run.entries, sub.cursor)[0].event.payload.isDone
    ensures var id := ReadAfter(w.run.entries, sub.cursor)[0].id;
            var w3 := Still(w, 3);
            w3.wire == w.wire + [id] && w3.sub.Some? && w3.sub.value.cursor == id
  {
    hide RunInv, ReadAfter, Next, Held;
    StillThree(w);
    NewBatch(w, sub);
    var w1 := Next(w, Advance(false));
    var w2 := Next(w1, Advance(false));
    OneEntry(w2, w2.sub.value);
    ReadIsConsecutive(w.run, sub.cursor);
    SameBatch(w, sub);
    var batch := ReadAfter(w.run.entries, sub.cursor);
    assert batch[0] == Entry(batch[0].id, w.run.history[batch[0].id - 1]);
  }

  lemma SameBatch(w: World, sub: Sub)
    requires w.sub == Some(sub) && sub.pc == Read && ReadAfter(w.run.entries, sub.cursor) != []
    ensures var w2 := Next(Next(w, Advance(false)), Advance(false));
            w2.sub.Some? && w2.sub.value.batch == ReadAfter(w.run.entries, sub.cursor)
  {
    hide ReadAfter;
  }

  /** A held subscriber goes round and round: five steps bring it back to where it was. */
  lemma HeldGoesRound(w: World, sub: Sub)
    requires RunInv(w.run) && w.sub == Some(sub) && sub.pc == Top
    requires sub.cursor <= |w.run.history| && Held(w.run, sub.cursor)
    ensures var w' := Still(w, 5);
            && w'.sub.Some? && w' == w.(sub := w'.sub)
            && w'.sub.value.pc == Top && w'.sub.value.cursor == sub.cursor
  {
    hide RunInv, ReadAfter, Next, Entries;
    RunTheorems.LogLength(w.run);
    StillThree(w);
    var w1 := Next(w, Advance(false));
    assert w1 == SetSub(w, sub.(pc := Read)) by { TopReads(w, sub); }
    assert w.run.entries != [] by { RunTheorems.Window(w.run); }
    ReadIsFull(w.run, sub.cursor);
    NewBatch(w1, w1.sub.value);
    var w3 := Next(Next(w1, Advance(false)), Advance(false));
    OneEntry(w3, w3.sub.value);
    SameNext(w.run, sub.cursor, w3.sub.value.batch);
    var w4 := Next(w3, Advance(false));
    BottomReturns(w4, w4.sub.value);
    assert Still(w, 4) == Next(Still(w, 3), Advance(false));
    assert Still(w, 5) == Next(Still(w, 4), Advance(false));
  }

  lemma SameNext(r: Run, cursor: nat, batch: seq<Entry>)
    requires batch != [] && Entries(r, cursor, batch) && Held(r, cursor)
    ensures 1 <= batch[0].id <= |r.history|
    ensures r.history[batch[0].id - 1].payload.isDone && r.history[batch[0].id - 1].fence == Some(r.fence)
  {
    var i :| cursor < i <= |r.history| && NextRetained(r, cursor, i)
             && r.history[i - 1].payload.isDone && r.history[i - 1].fence == Some(r.fence);
    assert i == batch[0].id;
  }

  lemma BottomReturns(w: World, sub: Sub)
    requires w.sub == Some(sub) && sub.pc == Bottom && sub.cursor < w.run.lastEventId
    ensures Next(w, Advance(false)) == SetSub(w, sub.(pc := Top))
  {
  }

  // ----- the client

  function Receives(w: World, n: nat): World
    decreases n
  {
    if n == 0 then w else Receives(Next(w, Receive), n - 1)
  }

  /** The client handles every frame that was sent above its cursor, in order. */
  lemma {:induction false} ReceivesAll(w: World)
    requires InOrder(w.client.last, w.wire, if w.wire == [] then w.client.last else w.wire[|w.wire| - 1])
    ensures var end := Receives(w, |w.wire|);
            && end.client.handled == w.client.handled + w.wire && end.wire == []
            && end.client.last == (if w.wire == [] then w.client.last else w.wire[|w.wire| - 1])
            && end.run == w.run && end.sub == w.sub && end.gapSent == w.gapSent
            && end.client.rejected == w.client.rejected
    decreases |w.wire|
  {
    if w.wire == [] {
      assert w.client.handled + w.wire == w.client.handled;
    } else {
      hide Next;
      var w1 := Next(w, Receive);
      ReceivesOne(w);
      ReceivesAll(w1);
      assert w.client.handled + w.wire == w1.client.handled + w1.wire;
    }
  }

  lemma ReceivesOne(w: World)
    requires w.wire != [] && w.client.last < w.wire[0]
    ensures Next(w, Receive) == w.(wire := w.wire[1..],
                                   client := w.client.(last := w.wire[0], handled := w.client.handled + [w.wire[0]]))
  {
  }

  /** And a gap frame behind them makes it give up. */
  lemma GapRejects(w: World)
    requires w.wire == [] && w.gapSent
    ensures Next(w, Receive).client == w.client.(rejected := true)
  {
  }

  lemma {:induction false} DueRises(r: Run, a: nat, b: nat)
    requires b <= |r.history| || b <= a
    ensures Rising(DueIds(r, a, b)) && forall i :: i in DueIds(r, a, b) <==> a < i <= b && !Trimmed(r, i) && Due(r, i)
  {
    hide Due, Trimmed;
    if b <= a {
    } else {
      DueRises(r, a, b - 1);
      var earlier := DueIds(r, a, b - 1);
      assert forall i :: 0 <= i < |earlier| ==> earlier[i] in earlier;
    }
  }

  /** A client that connects to a run that stands still, with nothing trimmed behind its cursor, gets
      everything that is due: all of it if the run waits or has ended, or up to the marker that the
      run must close first. */
  lemma ConnectedClientGetsAll(w: World) returns (n: nat, m: nat)
    requires RunInv(w.run) && w.sub == None && w.wire == [] && !w.gapSent && !w.client.rejected
    requires w.client.last <= |w.run.history| && Buffered(w.run, w.client.last)
    ensures var end := Receives(Still(Next(w, Connect), n), m);
            && end.sub.Some? && AtRest(end) && end.wire == []
            && w.client.last <= end.sub.value.cursor <= |w.run.history|
            && end.client.handled == w.client.handled + DueIds(w.run, w.client.last, end.sub.value.cursor)
  {
    hide RunInv, Still, DueIds, Held, Due, Buffered;
    var w0 := Next(w, Connect);
    var l := Opening(w);
    var w1 := Still(w0, l);
    hide Next;
    var k := Drains(w1, w1.sub.value);
    n := l + k;
    StillMore(w0, l, k);
    var w2 := Still(w0, n);
    DueRises(w.run, w.client.last, w2.sub.value.cursor);
    assert w2.wire == DueIds(w.run, w.client.last, w2.sub.value.cursor);
    assert forall i :: 0 <= i < |w2.wire| ==> w2.wire[i] in w2.wire;
    m := |w2.wire|;
    ReceivesAll(w2);
  }

  /** Without a gap, the opening checks lead to the loop. */
  lemma Opening(w: World) returns (n: nat)
    requires RunInv(w.run) && w.sub == None && w.wire == [] && !w.gapSent && !w.client.rejected
    requires w.client.last <= |w.run.history| && Buffered(w.run, w.client.last)
    ensures Still(Next(w, Connect), n) == SetSub(w, Sub(Top, w.client.last, [], None))
  {
    hide RunInv;
    RunTheorems.LogLength(w.run);
    RunTheorems.Window(w.run);
    var w0 := Next(w, Connect);
    var w1 := Next(w0, Advance(false));
    assert w1 == SetSub(w, Sub(Open2, w.client.last, [], None));
    StillThree(w0);
    StillOne(w0);
    n := if w.run.entries == [] then 3 else 2;
    assert Still(w0, 2) == Next(Still(w0, 1), Advance(false));
  }

  /** Three steps after a connect on a run that stands still, a gap has been reported exactly if the
      client's cursor is ahead of the log or its next event has been trimmed. */
  lemma OpeningReportsIff(w: World)
    requires RunInv(w.run) && w.sub == None && w.wire == [] && !w.gapSent && !w.client.rejected
    ensures var r, c := w.run, w.client.last;
            Still(Next(w, Connect), 3).gapSent
            <==> c > r.lastEventId || (c < r.lastEventId && !Retained(r, c + 1))
  {
    hide RunInv, Retained;
    OpeningGapIsExact(w.run, w.client.last);
    var w0 := Next(w, Connect);
    StillThree(w0);
    var w1 := Next(w0, Advance(false));
    var w2 := Next(w1, Advance(false));
  }

  /** A frame at or below the client's cursor is ignored. */
  lemma RepeatedFrameIsIgnored(w: World)
    requires w.wire != [] && w.wire[0] <= w.client.last
    ensures Next(w, Receive) == w.(wire := w.wire[1..])
  {
  }
}
