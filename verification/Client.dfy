/** Exactly-once delivery to a client that follows one run across any number of disconnects
    and reconnects. */
module Client {
  import opened RunTypes
  import opened RedisScripts
  import opened RunInvariants
  import RunTheorems
  import opened Subscriber

  /** Where the generator `subscribe` is suspended. `Gap2` and `Open3` are the second read of
      `_replay_gap`, taken when the first one found an empty stream. */
  datatype Pc = Open1 | Open2 | Open3 | Top | Read | Snap | Delivering | Gap1 | Gap2 | Bottom | EndedTerminal | Ended

  datatype Sub = Sub(pc: Pc, cursor: nat, batch: seq<Entry>, snap: Option<Run>)

  /** `last` is the cursor the client presents as Last-Event-ID, `handled` the ids it has
      handled in order, `rejected` that it was told to reload the history. */
  datatype Follower = Follower(start: nat, last: nat, handled: seq<nat>, rejected: bool)

  /** `wire`: ids of the event frames sent on the current connection and not yet received;
      `gapSent`: a gap frame follows them. Heartbeats are comments and carry no event. */
  datatype World = World(run: Run, client: Follower, sub: Option<Sub>, wire: seq<nat>, gapSent: bool)

  datatype Step =
    | Evolve(later: Run)
    | Connect
    | Disconnect
    | Advance(timeout: bool)
    | Receive

  /** Only reachable changes of the run. */
  ghost predicate Legal(w: World, step: Step) {
    step.Evolve? ==> RunInv(step.later) && Evolves(w.run, step.later)
  }

  /** A read that returns entries although the one behind the cursor has been trimmed. */
  predicate Skips(w: World, step: Step) {
    && step == Advance(false) && w.sub.Some? && w.sub.value.pc == Read
    && ReadAfter(w.run.entries, w.sub.value.cursor) != [] && !Buffered(w.run, w.sub.value.cursor)
  }

  /** The events between the cursor and the first entry of a read. */
  function PassedOver(w: World, step: Step): set<nat> {
    if step == Advance(false) && w.sub.Some? && w.sub.value.pc == Read
       && ReadAfter(w.run.entries, w.sub.value.cursor) != []
    then
      var first := ReadAfter(w.run.entries, w.sub.value.cursor)[0].id;
      set i: nat | i < first && Between(w.sub.value.cursor, i, first)
    else {}
  }

  predicate Between(a: nat, i: nat, b: nat) {
    a < i < b
  }

  function Exhausted(r: Run, cursor: nat): bool {
    (r.status.Terminal() || r.status == WaitingForInput) && cursor >= r.lastEventId
  }

  function SetSub(w: World, sub: Sub): World {
    w.(sub := Some(sub))
  }

  function EndOr(r: Run, cursor: nat, next: Pc): Pc {
    if !Exhausted(r, cursor) then next else if r.status.Terminal() then EndedTerminal else Ended
  }

  /** The next read or yield of the subscriber. */
  function Progress(w: World, sub: Sub, timeout: bool): World {
    var r, cursor := w.run, sub.cursor;
    match sub.pc
    case Open1 =>
      if cursor > r.lastEventId then SetSub(w, sub.(pc := Ended)).(gapSent := true) else SetSub(w, sub.(pc := Open2))
    case Open2 =>
      if r.entries == [] then SetSub(w, sub.(pc := Open3))
      else if ReplayGap(r, r, cursor).Some? then SetSub(w, sub.(pc := Ended)).(gapSent := true)
      else SetSub(w, sub.(pc := Top))
    case Open3 =>
      if r.lastEventId > cursor then SetSub(w, sub.(pc := Ended)).(gapSent := true) else SetSub(w, sub.(pc := Top))
    case Top => SetSub(w, sub.(pc := EndOr(r, cursor, Read)))
    case Read =>
      var batch := if timeout then [] else ReadAfter(r.entries, cursor);
      SetSub(w, if batch == [] then sub.(pc := Gap1) else sub.(pc := Snap, batch := batch))
    case Snap => SetSub(w, sub.(pc := Delivering, snap := Some(r)))
    case Delivering =>
      if sub.batch == [] || sub.snap.None? then SetSub(w, sub.(pc := Bottom))
      else
        var entry, state := sub.batch[0], sub.snap.value;
        var action := DoneAction(entry.event, state.status, state.fence, state.lastEventId, entry.id);
        if action == Wait then SetSub(w, sub.(pc := Bottom, batch := []))
        else
          var w' := SetSub(w, sub.(cursor := entry.id, batch := sub.batch[1..]));
          if action == Deliver then w'.(wire := w.wire + [entry.id]) else w'
    case Gap1 =>
      if r.entries == [] then SetSub(w, sub.(pc := Gap2))
      else if ReplayGap(r, r, cursor).Some? then SetSub(w, sub.(pc := Ended)).(gapSent := true)
      else SetSub(w, sub.(pc := Bottom))
    case Gap2 =>
      if r.lastEventId > cursor then SetSub(w, sub.(pc := Ended)).(gapSent := true) else SetSub(w, sub.(pc := Bottom))
    case Bottom => SetSub(w, sub.(pc := EndOr(r, cursor, Top)))
    case EndedTerminal => w
    case Ended => w
  }

  /** The client takes one frame: ids at or below its cursor are ignored. */
  function Handle(w: World): World {
    if w.wire != [] then
      var id := w.wire[0];
      var w' := w.(wire := w.wire[1..]);
      if id <= w.client.last then w'
      else w'.(client := w.client.(last := id, handled := w.client.handled + [id]))
    else if w.gapSent then w.(client := w.client.(rejected := true), gapSent := false)
    else w
  }

  function Next(w: World, step: Step): World {
    match step
    case Evolve(later) => w.(run := later)
    case Connect =>
      if w.sub.Some? || w.client.rejected then w
      else SetSub(w, Sub(Open1, w.client.last, [], None))
    case Disconnect => w.(sub := None, wire := [], gapSent := false)
    case Advance(timeout) => if w.sub.Some? then Progress(w, w.sub.value, timeout) else w
    case Receive => Handle(w)
  }

  // ----- what the client has seen

  /** A marker that is not for the client. That an unfenced one is skipped may depend on the moment. */
  predicate Stale(r: Run, i: nat)
    requires 1 <= i <= |r.history|
  {
    r.history[i - 1].payload.isDone && (r.history[i - 1].fence.Some? ==> Verdict(r, i) == Skip)
  }

  predicate Rising(ids: seq<nat>) {
    forall a, b :: 0 <= a < b < |ids| ==> ids[a] < ids[b]
  }

  /** What a reader of `ids` may rely on, from `start` to `last`: every event once and in order,
      except stale markers and the events in `missed`; a marker among them is the last event of a
      terminal run, so it is the only one. */
  ghost predicate ExactlyOnce(r: Run, start: nat, last: nat, ids: seq<nat>, missed: set<nat>) {
    && Rising(ids)
    && (forall i :: i in ids ==> start < i <= last && i <= |r.history|)
    && (forall i :: i in ids && r.history[i - 1].payload.isDone ==> r.status.Terminal() && i == |r.history|)
    && (forall i :: start < i <= last && i !in ids ==> i <= |r.history| && (i in missed || Stale(r, i)))
  }

  ghost predicate Seen(r: Run, start: nat, c: nat, ids: seq<nat>, missed: set<nat>) {
    start <= c && (c <= |r.history| || c == start) && ExactlyOnce(r, start, c, ids, missed)
  }

  lemma SeenLater(r: Run, later: Run, start: nat, c: nat, ids: seq<nat>, missed: set<nat>)
    requires RunInv(r) && RunInv(later) && Evolves(r, later) && Seen(r, start, c, ids, missed)
    ensures Seen(later, start, c, ids, missed)
  {
    hide RunInv, Verdict, Rising;
    assert r.history <= later.history;
    forall i | start < i <= c && i !in ids && i !in missed ensures i <= |later.history| && Stale(later, i) {
      assert Stale(r, i) && later.history[i - 1] == r.history[i - 1];
      if r.history[i - 1].fence.Some? { VerdictIsFinal(r, later, i); }
    }
  }

  /** The subscriber passes event `id` on the verdict of an earlier state `snap`. */
  lemma SeenNext(r: Run, snap: Run, start: nat, c: nat, id: nat, ids: seq<nat>, missed: set<nat>)
    requires RunInv(r) && RunInv(snap) && Evolves(snap, r) && Seen(r, start, c, ids, missed)
    requires c < id <= |snap.history| && forall i :: c < i < id ==> i in missed
    ensures id <= |r.history|
    ensures Verdict(snap, id) == Skip ==> Seen(r, start, id, ids, missed)
    ensures Verdict(snap, id) == Deliver ==> Seen(r, start, id, ids + [id], missed)
  {
    hide RunInv;
    assert snap.history <= r.history;
    assert snap.history[id - 1] == r.history[id - 1];
    RunTheorems.LogLength(snap);
    RunTheorems.LogLength(r);
    if snap.history[id - 1].fence.Some? { VerdictIsFinal(snap, r, id); }
    if Verdict(snap, id) == Deliver {
      var more := ids + [id];
      assert forall i :: i in more <==> i in ids || i == id;
      assert Rising(more) by {
        forall a, b | 0 <= a < b < |more| ensures more[a] < more[b] { assert a < |ids| ==> more[a] in ids; }
      }
    }
  }

  lemma SeenMore(r: Run, start: nat, c: nat, ids: seq<nat>, missed: set<nat>, more: set<nat>)
    requires Seen(r, start, c, ids, missed) && missed <= more
    ensures Seen(r, start, c, ids, more)
  {
    hide RunInv, Stale, Rising;
  }

  // ----- the invariant

  /** Ids in flight are above the client's cursor, increasing, and not above the subscriber's. */
  ghost predicate InOrder(last: nat, wire: seq<nat>, cursor: nat) {
    && last <= cursor
    && (forall i :: 0 <= i < |wire| ==> last < wire[i] <= cursor)
    && (forall i, j :: 0 <= i < j < |wire| ==> wire[i] < wire[j])
  }

  /** After the first j frames in flight, the client will have seen what it must have seen. */
  ghost predicate Chain(r: Run, client: Follower, wire: seq<nat>, missed: set<nat>) {
    forall j :: 0 <= j <= |wire| ==>
      Seen(r, client.start, if j == 0 then client.last else wire[j - 1], client.handled + wire[..j], missed)
  }

  /** A batch holds consecutive events; what lies between the cursor and the first is missed. */
  ghost predicate Batch(batch: seq<Entry>, cursor: nat, h: seq<Event>, missed: set<nat>) {
    batch != [] ==>
      && cursor < batch[0].id && Consecutive(batch, batch[0].id - 1, h)
      && (forall i :: cursor < i < batch[0].id ==> i in missed)
  }

  ghost predicate SubOk(r: Run, sub: Sub, missed: set<nat>) {
    && (sub.pc != Open1 && sub.pc != Ended ==> sub.cursor <= |r.history|)
    && (sub.pc == Snap || sub.pc == Delivering ==> Batch(sub.batch, sub.cursor, r.history, missed))
    && (sub.pc == Delivering ==> sub.snap.Some?)
    && (sub.pc == Delivering ==>
          && RunInv(sub.snap.value) && Evolves(sub.snap.value, r)
          && (sub.batch != [] ==> sub.batch[0].id - 1 + |sub.batch| <= |sub.snap.value.history|))
    && (sub.pc == EndedTerminal ==> r.status.Terminal() && sub.cursor == |r.history|)
  }

  ghost predicate WorldInv(w: World, missed: set<nat>) {
    && RunInv(w.run)
    && (w.sub.None? ==> w.wire == [] && !w.gapSent)
    && (w.sub.Some? && w.gapSent ==> w.sub.value.pc == Ended)
    && (forall i :: i in missed ==> i < |w.run.history|)
    && Chain(w.run, w.client, w.wire, missed)
    && (w.sub.Some? ==>
          && SubOk(w.run, w.sub.value, missed)
          && InOrder(w.client.last, w.wire, w.sub.value.cursor)
          && Seen(w.run, w.client.start, w.sub.value.cursor, w.client.handled + w.wire, missed))
  }

  lemma ChainLater(r: Run, later: Run, client: Follower, wire: seq<nat>, missed: set<nat>)
    requires RunInv(r) && RunInv(later) && Evolves(r, later) && Chain(r, client, wire, missed)
    ensures Chain(later, client, wire, missed)
  {
    hide RunInv, Seen, Evolves;
    forall j | 0 <= j <= |wire|
      ensures Seen(later, client.start, if j == 0 then client.last else wire[j - 1], client.handled + wire[..j], missed)
    {
      var c := if j == 0 then client.last else wire[j - 1];
      SeenLater(r, later, client.start, c, client.handled + wire[..j], missed);
    }
  }

  lemma ChainMore(r: Run, client: Follower, wire: seq<nat>, missed: set<nat>, more: set<nat>)
    requires Chain(r, client, wire, missed) && missed <= more
    ensures Chain(r, client, wire, more)
  {
    hide Seen;
    forall j | 0 <= j <= |wire|
      ensures Seen(r, client.start, if j == 0 then client.last else wire[j - 1], client.handled + wire[..j], more)
    {
      var c := if j == 0 then client.last else wire[j - 1];
      SeenMore(r, client.start, c, client.handled + wire[..j], missed, more);
    }
  }

  lemma ConsecutiveLater(batch: seq<Entry>, from: nat, h: seq<Event>, later: seq<Event>)
    requires Consecutive(batch, from, h) && h <= later
    ensures Consecutive(batch, from, later)
  {
    forall i | 0 <= i < |batch| ensures batch[i] == Entry(from + 1 + i, later[from + i]) {
      assert batch[i] == Entry(from + 1 + i, h[from + i]);
    }
  }

  lemma SubOkLater(r: Run, later: Run, sub: Sub, missed: set<nat>)
    requires Evolves(r, later) && SubOk(r, sub, missed)
    ensures SubOk(later, sub, missed)
  {
    hide RunInv, Consecutive;
    if sub.pc == Delivering { EvolvesTrans(sub.snap.value, r, later); }
    if (sub.pc == Snap || sub.pc == Delivering) && sub.batch != [] {
      ConsecutiveLater(sub.batch, sub.batch[0].id - 1, r.history, later.history);
    }
  }

  lemma InvEvolves(w: World, later: Run, missed: set<nat>)
    requires WorldInv(w, missed) && RunInv(later) && Evolves(w.run, later)
    ensures WorldInv(w.(run := later), missed)
  {
    hide RunInv, Seen, Chain, SubOk;
    ChainLater(w.run, later, w.client, w.wire, missed);
    assert |w.run.history| <= |later.history|;
    if w.sub.Some? {
      SubOkLater(w.run, later, w.sub.value, missed);
      SeenLater(w.run, later, w.client.start, w.sub.value.cursor, w.client.handled + w.wire, missed);
    }
  }

  lemma InvConnects(w: World, missed: set<nat>)
    requires WorldInv(w, missed)
    ensures WorldInv(Next(w, Connect), missed)
  {
    hide RunInv, Seen;
    if w.sub.None? {
      assert w.client.handled + w.wire[..0] == w.client.handled + w.wire;
    }
  }

  lemma InvDisconnects(w: World, missed: set<nat>)
    requires WorldInv(w, missed)
    ensures WorldInv(Next(w, Disconnect), missed)
  {
    hide RunInv, Seen;
    assert w.wire[..0] == [];
    assert Seen(w.run, w.client.start, w.client.last, w.client.handled + w.wire[..0], missed);
  }

  lemma InvReceives(w: World, missed: set<nat>)
    requires WorldInv(w, missed)
    ensures WorldInv(Next(w, Receive), missed)
  {
    hide RunInv, Seen, SubOk;
    if w.wire != [] {
      var w' := Handle(w);
      var id := w.wire[0];
      assert w'.client.handled == w.client.handled + [id] && w'.client.last == id;
      forall j | 0 <= j <= |w'.wire|
        ensures Seen(w.run, w.client.start, if j == 0 then id else w'.wire[j - 1], w'.client.handled + w'.wire[..j],
                     missed)
      {
        assert w'.client.handled + w'.wire[..j] == w.client.handled + w.wire[..j + 1];
      }
      assert w'.client.handled + w'.wire == w.client.handled + w.wire;
    }
  }

  lemma BatchTail(batch: seq<Entry>, cursor: nat, h: seq<Event>, missed: set<nat>)
    requires batch != [] && Batch(batch, cursor, h, missed)
    ensures Batch(batch[1..], batch[0].id, h, missed)
    ensures batch[0].id <= |h| && batch[0].event == h[batch[0].id - 1]
    ensures |batch| > 1 ==> batch[1..][0].id == batch[0].id + 1
  {
    assert batch[0] == Entry(batch[0].id, h[batch[0].id - 1]);
    var rest := batch[1..];
    forall i | 0 <= i < |rest| ensures rest[i] == Entry(batch[0].id + 1 + i, h[batch[0].id + i]) {
      assert rest[i] == batch[i + 1];
    }
    if rest != [] { assert rest[0].id == batch[0].id + 1; }
  }

  /** One entry of the batch. */
  lemma InvDelivers(w: World, sub: Sub, missed: set<nat>)
    requires WorldInv(w, missed) && w.sub == Some(sub) && sub.pc == Delivering && sub.batch != []
    ensures WorldInv(Progress(w, sub, false), missed)
  {
    hide RunInv, Seen, Consecutive, Evolves;
    var w', id, start := Progress(w, sub, false), sub.batch[0].id, w.client.start;
    var snap := sub.snap.value;
    var ids := w.client.handled + w.wire;
    BatchTail(sub.batch, sub.cursor, w.run.history, missed);
    assert snap.history <= w.run.history by { EvolvesLog(snap, w.run); }
    assert snap.history[id - 1] == w.run.history[id - 1];
    RunTheorems.LogLength(snap);
    SeenNext(w.run, snap, start, sub.cursor, id, ids, missed);
    var action := Verdict(snap, id);
    if action == Deliver {
      assert ids + [id] == w.client.handled + w'.wire;
      forall j | 0 <= j <= |w'.wire|
        ensures Seen(w.run, start, if j == 0 then w.client.last else w'.wire[j - 1], w.client.handled + w'.wire[..j],
                     missed)
      {
        if j <= |w.wire| {
          assert w'.wire[..j] == w.wire[..j];
        } else {
          assert w'.wire[..j] == w'.wire;
        }
      }
    }
  }

  lemma EvolvesLog(r: Run, later: Run)
    requires Evolves(r, later)
    ensures r.history <= later.history
  {
  }

  /** A read of entries: what it passes over is missed from now on. */
  lemma InvReadsEntries(w: World, sub: Sub, missed: set<nat>)
    requires WorldInv(w, missed) && w.sub == Some(sub) && sub.pc == Read
    requires ReadAfter(w.run.entries, sub.cursor) != []
    ensures WorldInv(Progress(w, sub, false), missed + PassedOver(w, Advance(false)))
  {
    hide RunInv, Seen, ReadAfter, ReplayGap, Chain, InOrder, Evolves, Buffered;
    RunTheorems.LogLength(w.run);
    ReadIsConsecutive(w.run, sub.cursor);
    var more := missed + PassedOver(w, Advance(false));
    ChainMore(w.run, w.client, w.wire, missed, more);
    SeenMore(w.run, w.client.start, sub.cursor, w.client.handled + w.wire, missed, more);
  }

  /** Every other read of the subscriber. */
  lemma InvReads(w: World, sub: Sub, timeout: bool, missed: set<nat>)
    requires WorldInv(w, missed) && w.sub == Some(sub)
    requires sub.pc == Delivering ==> sub.batch == []
    requires sub.pc == Read ==> timeout || ReadAfter(w.run.entries, sub.cursor) == []
    ensures WorldInv(Progress(w, sub, timeout), missed)
  {
    hide RunInv, Seen, ReadAfter, ReplayGap, Chain, InOrder, Evolves;
    RunTheorems.LogLength(w.run);
    EvolvesRefl(w.run);
  }

  /** Every step keeps it, with the events it passes over added to the missed ones. */
  lemma InvStep(w: World, step: Step, missed: set<nat>)
    requires WorldInv(w, missed) && Legal(w, step)
    ensures WorldInv(Next(w, step), missed + PassedOver(w, step))
  {
    hide WorldInv, ReadAfter;
    assert PassedOver(w, step) == {} ==> missed + PassedOver(w, step) == missed;
    match step
    case Evolve(later) => InvEvolves(w, later, missed);
    case Connect => InvConnects(w, missed);
    case Disconnect => InvDisconnects(w, missed);
    case Receive => InvReceives(w, missed);
    case Advance(timeout) =>
      if w.sub.Some? {
        var sub := w.sub.value;
        if sub.pc == Delivering && sub.batch != [] {
          assert Progress(w, sub, timeout) == Progress(w, sub, false);
          InvDelivers(w, sub, missed);
        } else if sub.pc == Read && !timeout && ReadAfter(w.run.entries, sub.cursor) != [] {
          InvReadsEntries(w, sub, missed);
        } else {
          InvReads(w, sub, timeout, missed);
        }
      }
  }

  // ----- exactly once

  /** A world in which the client begins to follow an existing run at cursor `start`. */
  function Begin(r: Run, start: nat): World {
    World(r, Follower(start, start, [], false), None, [], false)
  }

  ghost predicate Reaches(w: World, steps: seq<Step>, end: World)
    decreases |steps|
  {
    if steps == [] then w == end
    else Legal(w, steps[0]) && Reaches(Next(w, steps[0]), steps[1..], end)
  }

  /** The events that reads pass over in the course of `steps`. */
  function Missed(w: World, steps: seq<Step>): set<nat>
    decreases |steps|
  {
    if steps == [] then {} else PassedOver(w, steps[0]) + Missed(Next(w, steps[0]), steps[1..])
  }

  predicate NeverSkips(w: World, steps: seq<Step>)
    decreases |steps|
  {
    steps == [] || (!Skips(w, steps[0]) && NeverSkips(Next(w, steps[0]), steps[1..]))
  }

  lemma {:induction false} ReachesInv(w: World, steps: seq<Step>, end: World, missed: set<nat>)
    requires WorldInv(w, missed) && Reaches(w, steps, end)
    ensures WorldInv(end, missed + Missed(w, steps)) && end.client.start == w.client.start
    decreases |steps|
  {
    hide WorldInv, Legal, PassedOver, Next;
    if steps == [] {
      assert missed + {} == missed;
    } else {
      InvStep(w, steps[0], missed);
      SameStart(w, steps[0]);
      var more := missed + PassedOver(w, steps[0]);
      ReachesInv(Next(w, steps[0]), steps[1..], end, more);
      assert missed + Missed(w, steps) == more + Missed(Next(w, steps[0]), steps[1..]);
    }
  }

  lemma SameStart(w: World, step: Step)
    ensures Next(w, step).client.start == w.client.start
  {
    hide ReadAfter, ReplayGap, DoneAction;
  }

  lemma BeginInv(r: Run, start: nat)
    requires RunInv(r)
    ensures WorldInv(Begin(r, start), {})
  {
    hide RunInv;
  }

  lemma BeginReaches(r: Run, start: nat, steps: seq<Step>, end: World)
    requires RunInv(r) && Reaches(Begin(r, start), steps, end)
    ensures WorldInv(end, Missed(Begin(r, start), steps)) && end.client.start == start
  {
    hide WorldInv, RunInv;
    BeginInv(r, start);
    ReachesInv(Begin(r, start), steps, end, {});
    assert {} + Missed(Begin(r, start), steps) == Missed(Begin(r, start), steps);
  }

  /** Over any disconnects and reconnects the client has handled every event after its starting
      cursor exactly once and in order, except stale markers and what reads have passed over. */
  lemma HandledExactlyOnce(r: Run, start: nat, steps: seq<Step>, end: World)
    requires RunInv(r) && Reaches(Begin(r, start), steps, end)
    ensures ExactlyOnce(end.run, start, end.client.last, end.client.handled, Missed(Begin(r, start), steps))
  {
    hide Missed, RunInv, ExactlyOnce;
    BeginReaches(r, start, steps, end);
    var missed := Missed(Begin(r, start), steps);
    assert end.wire[..0] == [];
    assert Seen(end.run, start, end.client.last, end.client.handled + end.wire[..0], missed);
    assert end.client.handled + [] == end.client.handled;
  }

  /** The same of everything sent, received or not. */
  lemma SentExactlyOnce(r: Run, start: nat, steps: seq<Step>, end: World)
    requires RunInv(r) && Reaches(Begin(r, start), steps, end) && end.sub.Some?
    ensures ExactlyOnce(end.run, start, end.sub.value.cursor, end.client.handled + end.wire,
                        Missed(Begin(r, start), steps))
  {
    hide Missed, RunInv, ExactlyOnce;
    BeginReaches(r, start, steps, end);
  }

  /** A marker among everything sent, received or not. */
  ghost predicate SentMarker(w: World, i: nat) {
    i in w.client.handled + w.wire && 1 <= i <= |w.run.history| && w.run.history[i - 1].payload.isDone
  }

  /** At most one marker is ever sent, whatever is trimmed, and then the run is terminal and the
      marker is its last event. */
  lemma OneMarker(r: Run, start: nat, steps: seq<Step>, end: World, i: nat, j: nat)
    requires RunInv(r) && Reaches(Begin(r, start), steps, end) && end.sub.Some?
    requires SentMarker(end, i) && SentMarker(end, j)
    ensures i == j == |end.run.history| && end.run.status.Terminal()
  {
    hide RunInv, Missed, Reaches;
    SentExactlyOnce(r, start, steps, end);
  }

  /** Exactly when something can be missed: a read passes over an event if and only if it skips. */
  lemma PassesOverIff(w: World, step: Step, missed: set<nat>)
    requires WorldInv(w, missed)
    ensures PassedOver(w, step) != {} <==> Skips(w, step)
  {
    hide RunInv, ReadAfter, Seen, Chain, Buffered;
    if step == Advance(false) && w.sub.Some? && w.sub.value.pc == Read {
      var cursor := w.sub.value.cursor;
      if ReadAfter(w.run.entries, cursor) != [] {
        RunTheorems.LogLength(w.run);
        ReadIsConsecutive(w.run, cursor);
        assert ReadAfter(w.run.entries, cursor)[0].id > cursor + 1 ==> cursor + 1 in PassedOver(w, step);
      }
    }
  }

  /** As long as no read skips, nothing is missed. */
  lemma {:induction false} NothingMissed(w: World, steps: seq<Step>, end: World, missed: set<nat>)
    requires WorldInv(w, missed) && Reaches(w, steps, end) && NeverSkips(w, steps)
    ensures Missed(w, steps) == {}
    decreases |steps|
  {
    hide WorldInv, Legal, PassedOver, Next, Skips;
    if steps == [] {
    } else {
      PassesOverIff(w, steps[0], missed);
      InvStep(w, steps[0], missed);
      NothingMissed(Next(w, steps[0]), steps[1..], end, missed + PassedOver(w, steps[0]));
    }
  }

  /** When the subscription ends on a terminal run and the client has received everything sent,
      nothing is left to come: it stands at the end of the log, and if the log ends with a marker
      of the final token, that marker has been handled. */
  lemma TerminalEndIsComplete(r: Run, start: nat, steps: seq<Step>, end: World)
    requires RunInv(r) && Reaches(Begin(r, start), steps, end)
    requires end.sub.Some? && end.sub.value.pc == EndedTerminal && end.wire == []
    ensures ExactlyOnce(end.run, start, |end.run.history|, end.client.handled, Missed(Begin(r, start), steps))
    ensures start < |end.run.history| && DoneWith(end.run.history[|end.run.history| - 1], end.run.fence) ==>
              |end.run.history| in end.client.handled
  {
    hide RunInv, Missed, Chain;
    BeginReaches(r, start, steps, end);
    RunTheorems.LogLength(end.run);
    assert end.client.handled + end.wire == end.client.handled;
    var n := |end.run.history|;
    if start < n && DoneWith(end.run.history[n - 1], end.run.fence) { assert !Stale(end.run, n); }
  }

  // ----- trimming past the cursor

  /** The event has not been handled, and the client's filter will not let it through any more. */
  predicate Lost(c: Follower, id: nat) {
    c.start < id <= c.last && id !in c.handled
  }

  /** What the client has passed over it never handles later, whatever is sent. */
  lemma LostForGood(w: World, step: Step, id: nat)
    requires Lost(w.client, id)
    ensures Lost(Next(w, step).client, id)
  {
    hide ReadAfter, ReplayGap, DoneAction;
  }

  /** A read that skips is not reported. Whatever its first entry is, no gap frame is sent. If it is
      delivered or is a stale marker, the subscriber's cursor goes past the trimmed event; if it is a
      marker to wait for, the cursor stays and the read is repeated. The entry is the event behind
      the cursor if and only if that had not been trimmed. */
  lemma ReadPassesOver(w: World, sub: Sub)
    requires RunInv(w.run) && w.sub == Some(sub) && sub.pc == Read && sub.cursor <= w.run.lastEventId
    requires ReadAfter(w.run.entries, sub.cursor) != []
    ensures var entry := ReadAfter(w.run.entries, sub.cursor)[0];
            var action := DoneAction(entry.event, w.run.status, w.run.fence, w.run.lastEventId, entry.id);
            var w' := Next(Next(Next(w, Advance(false)), Advance(false)), Advance(false));
            && w'.sub.Some? && w'.client == w.client && w'.gapSent == w.gapSent
            && w'.sub.value.cursor == (if action == Wait then sub.cursor else entry.id)
            && w'.wire == w.wire + (if action == Deliver then [entry.id] else [])
            && (entry.id == sub.cursor + 1 <==> Buffered(w.run, sub.cursor))
  {
    hide RunInv, ReadAfter, Buffered, ReplayGap, DoneAction;
    ReadIsConsecutive(w.run, sub.cursor);
    var w1 := Next(w, Advance(false));
    assert w1.sub == Some(sub.(pc := Snap, batch := ReadAfter(w.run.entries, sub.cursor)));
    var w2 := Next(w1, Advance(false));
    assert w2.sub == Some(w1.sub.value.(pc := Delivering, snap := Some(w.run)));
  }

  /** Only a poll that returns nothing looks for a gap, and on a state that stands still it reports
      one exactly when the event behind the cursor has been trimmed. */
  lemma IdlePollReports(w: World, sub: Sub, timeout: bool)
    requires RunInv(w.run) && w.sub == Some(sub) && sub.pc == Read && sub.cursor <= w.run.lastEventId && !w.gapSent
    requires timeout || ReadAfter(w.run.entries, sub.cursor) == []
    ensures var w1 := Next(Next(w, Advance(timeout)), Advance(false));
            var w2 := if w.run.entries == [] then Next(w1, Advance(false)) else w1;
            w2.gapSent <==> sub.cursor < w.run.lastEventId && !Retained(w.run, sub.cursor + 1)
  {
    hide RunInv, ReadAfter, Retained;
    OpeningGapIsExact(w.run, sub.cursor);
    var w1 := Next(w, Advance(timeout));
    assert w1 == SetSub(w, sub.(pc := Gap1));
  }

  function Trace(w: World, steps: seq<Step>): World {
    if steps == [] then w else Next(Trace(w, steps[..|steps| - 1]), steps[|steps| - 1])
  }

  lemma TraceMore(w: World, steps: seq<Step>, step: Step)
    ensures Trace(w, steps + [step]) == Next(Trace(w, steps), step)
  {
    hide Next;
    assert (steps + [step])[..|steps|] == steps;
  }

  lemma TraceThree(w: World, steps: seq<Step>, a: Step, b: Step, c: Step)
    ensures Trace(w, steps + [a, b, c]) == Next(Next(Next(Trace(w, steps), a), b), c)
  {
    hide Next;
    TraceMore(w, steps, a);
    TraceMore(w, steps + [a], b);
    TraceMore(w, steps + [a] + [b], c);
    assert steps + [a] + [b] + [c] == steps + [a, b, c];
  }

  const OPENING: seq<Step> := [Connect, Advance(true), Advance(true), Advance(true), Advance(true)]

  /** The opening checks on a run without events. */
  lemma Opens(r: Run)
    requires r.entries == [] && r.lastEventId == 0 && r.status == Queued
    ensures Trace(Begin(r, 0), OPENING) == Begin(r, 0).(sub := Some(Sub(Read, 0, [], None)))
  {
    hide ReadAfter;
    var w := Begin(r, 0);
    var checks := [Connect, Advance(true), Advance(true)];
    TraceThree(w, [], Connect, Advance(true), Advance(true));
    assert [] + checks == checks;
    var w3 := Trace(w, checks);
    assert w3 == w.(sub := Some(Sub(Open3, 0, [], None)));
    TraceMore(w, checks, Advance(true));
    TraceMore(w, checks + [Advance(true)], Advance(true));
    assert checks + [Advance(true)] + [Advance(true)] == OPENING;
  }

  lemma TwoEvents(q: StartRequest, lease: nat, p: Payload) returns (r1: Run, r2: Run)
    requires q.bufferSize == 1
    ensures var r := NewRun(q, lease);
            && r1 == AppendTo(r, r.fence, p, None) && r2 == AppendTo(r1, r1.fence, p, None)
            && RunInv(r) && RunInv(r1) && RunInv(r2) && Evolves(r, r1) && Evolves(r1, r2)
            && r.entries == [] && r.lastEventId == 0 && r.status == Queued
            && r2.entries == [Entry(2, Event(p, Some(1)))] && r2.lastEventId == 2
  {
    hide RunInv, Evolves;
    var r := NewRun(q, lease);
    r1 := AppendTo(r, r.fence, p, None);
    r2 := AppendTo(r1, r1.fence, p, None);
    NewRunKeeps(q, lease);
    AppendKeeps(r, p, None);
    AppendKeeps(r1, p, None);
  }

  /** It happens: with room for one event, two are appended after the subscriber has looked for a
      gap and before it reads. The client handles event 2 and never learns of event 1. */
  lemma EventLostSilently(q: StartRequest, lease: nat, p: Payload) returns (r1: Run, r2: Run, steps: seq<Step>)
    requires q.bufferSize == 1 && !p.isDone
    ensures var r := NewRun(q, lease);
            && RunInv(r) && RunInv(r1) && RunInv(r2) && Evolves(r, r1) && Evolves(r1, r2)
            && steps == OPENING + [Evolve(r1), Evolve(r2), Advance(false)] + [Advance(false), Advance(false), Receive]
            && var end := Trace(Begin(r, 0), steps);
               end.client.handled == [2] && Lost(end.client, 1) && !end.gapSent && !end.client.rejected
  {
    hide RunInv, Evolves, AppendTo, NewRun, Next;
    r1, r2 := TwoEvents(q, lease, p);
    var r := NewRun(q, lease);
    var w := Begin(r, 0);
    Opens(r);
    TraceThree(w, OPENING, Evolve(r1), Evolve(r2), Advance(false));
    steps := OPENING + [Evolve(r1), Evolve(r2), Advance(false)];
    TraceThree(w, steps, Advance(false), Advance(false), Receive);
    steps := steps + [Advance(false), Advance(false), Receive];
    var w0 := Trace(w, OPENING);
    assert Next(Next(w0, Evolve(r1)), Evolve(r2)) == w0.(run := r2) by { TwoEvolve(w0, r1, r2); }
    assert ReadAfter(r2.entries, 0) == r2.entries;
    ReadPassesOver(w0.(run := r2), Sub(Read, 0, [], None));
    var w3 := Next(Next(Next(w0.(run := r2), Advance(false)), Advance(false)), Advance(false));
    ReceivesTwo(w3);
  }

  lemma TwoEvolve(w: World, r1: Run, r2: Run)
    ensures Next(Next(w, Evolve(r1)), Evolve(r2)) == w.(run := r2)
  {
  }

  lemma ReceivesTwo(w: World)
    requires w.wire == [2] && w.client == Follower(0, 0, [], false) && !w.gapSent
    ensures var end := Next(w, Receive);
            end.client.handled == [2] && Lost(end.client, 1) && !end.gapSent && !end.client.rejected
  {
  }
}
