/** The outbox-to-Kafka relay: any number of relays share one consumer group, and each can fail
    or crash between any two of its steps. */
module KafkaRelay {
  import opened RunTypes

  type EntryId = nat
  type Consumer = nat

  /** `_publish_entries`: entries still to do, or one that Kafka has acknowledged and Redis not yet. */
  datatype Pc = Idle | Publishing(todo: seq<EntryId>) | Acknowledged(entry: EntryId, todo: seq<EntryId>)

  /** `stream` and `pending` are the Redis stream and the group's pending entries list, `delivered`
      the group's last delivered id. `malformed` are the entries that cannot be decoded, `kafka`
      those Kafka has acknowledged. Ids up to `written` have been used. */
  datatype State = State(
    written: nat, stream: set<EntryId>, malformed: set<EntryId>,
    delivered: nat, pending: map<EntryId, Consumer>,
    kafka: set<EntryId>, relays: map<Consumer, Pc>)

  const EMPTY: State := State(0, {}, {}, 0, map[], {}, map[])

  datatype Step =
    | Write(decodes: bool)
    | ReadNew(c: Consumer, upTo: nat, batch: seq<EntryId>)
    | Reclaim(c: Consumer, batch: seq<EntryId>)
    | Advance(c: Consumer, sendFails: bool)
    | Fail(c: Consumer)

  function PcOf(s: State, c: Consumer): Pc {
    if c in s.relays then s.relays[c] else Idle
  }

  function SetPc(s: State, c: Consumer, pc: Pc): State {
    s.(relays := s.relays[c := pc])
  }

  function Claimed(batch: seq<EntryId>, c: Consumer): map<EntryId, Consumer> {
    map e | e in batch :: c
  }

  predicate Unread(s: State, upTo: nat, batch: seq<EntryId>) {
    && (forall e :: e in batch ==> e in s.stream && s.delivered < e <= upTo)
    && (forall e :: e in s.stream && s.delivered < e <= upTo ==> e in batch)
  }

  /** One statement of the loop in `_publish_entries`. */
  function Progress(s: State, c: Consumer, sendFails: bool): State {
    match PcOf(s, c)
    case Idle => s
    case Publishing(todo) =>
      if todo == [] then SetPc(s, c, Idle)
      else if todo[0] in s.malformed then SetPc(s, c, Publishing(todo[1..]))
      else if sendFails then SetPc(s, c, Idle)
      else SetPc(s.(kafka := s.kafka + {todo[0]}), c, Acknowledged(todo[0], todo[1..]))
    case Acknowledged(e, todo) =>
      // XACK, and XDEL only if it was still pending; otherwise the relay raises
      if e in s.pending
      then SetPc(s.(pending := s.pending - {e}, stream := s.stream - {e}), c, Publishing(todo))
      else SetPc(s, c, Idle)
  }

  /** `_publish_entries` from the start to its return or exception when no other relay
      interferes; Kafka rejects the entries in `failing`. */
  function RunToIdle(s: State, c: Consumer, failing: set<EntryId>): State
    decreases match PcOf(s, c)
              case Idle => 0
              case Publishing(todo) => 2 * |todo| + 1
              case Acknowledged(_, todo) => 2 * |todo| + 2
  {
    match PcOf(s, c)
    case Idle => s
    case Publishing(todo) => RunToIdle(Progress(s, c, todo != [] && todo[0] in failing), c, failing)
    case Acknowledged(_, _) => RunToIdle(Progress(s, c, false), c, failing)
  }

  /** The state after the first entry of `todo` has been dealt with. */
  function Handled(s: State, c: Consumer, todo: seq<EntryId>, failing: set<EntryId>): State
    requires todo != []
  {
    var e := todo[0];
    if e in s.malformed then s.(relays := map[c := Publishing(todo[1..])])
    else if e in failing then s.(relays := map[c := Idle])
    else if e in s.pending then
      s.(kafka := s.kafka + {e}, pending := s.pending - {e}, stream := s.stream - {e},
         relays := map[c := Publishing(todo[1..])])
    else s.(kafka := s.kafka + {e}, relays := map[c := Idle])
  }

  lemma HandlesOne(s: State, c: Consumer, todo: seq<EntryId>, failing: set<EntryId>)
    requires s.relays == map[c := Publishing(todo)] && todo != []
    ensures RunToIdle(s, c, failing) == RunToIdle(Handled(s, c, todo, failing), c, failing)
  {
    var s1 := Progress(s, c, todo[0] in failing);
    assert forall pc :: s.relays[c := pc] == map[c := pc];
    if todo[0] !in s.malformed && todo[0] !in failing {
      assert s1.relays == map[c := Acknowledged(todo[0], todo[1..])];
      var s2 := Progress(s1, c, false);
      assert s2 == Handled(s, c, todo, failing);
      assert RunToIdle(s1, c, failing) == RunToIdle(s2, c, failing);
    }
  }

  lemma IdleStays(s: State, c: Consumer, failing: set<EntryId>)
    ensures s.relays == map[c := Idle] ==> RunToIdle(s, c, failing) == s
    ensures s.relays == map[c := Publishing([])] ==> RunToIdle(s, c, failing) == s.(relays := map[c := Idle])
  {
  }

  /** Kafka rejects the entry, or takes it although it is not pending any more: it never was, or
      it was acknowledged earlier in the batch. */
  predicate Refused(
    entries: seq<EntryId>, i: nat, malformed: set<EntryId>, failing: set<EntryId>, pending: set<EntryId>)
    requires i < |entries|
  {
    entries[i] !in malformed && (entries[i] in failing || entries[i] !in pending || entries[i] in entries[..i])
  }

  /** The Redis stream, its pending entries list and the Kafka topic, as one relay changes them. */
  class Outbox {
    const written: nat
    const malformed: set<EntryId>
    const delivered: nat
    var stream: set<EntryId>
    var pending: map<EntryId, Consumer>
    var kafka: set<EntryId>

    function View(c: Consumer, pc: Pc): State
      reads this
    {
      State(written, stream, malformed, delivered, pending, kafka, map[c := pc])
    }

    /** One round of that loop: decode, publish, then acknowledge and delete. */
    method PublishOne(c: Consumer, entry: EntryId, failing: set<EntryId>, ghost todo: seq<EntryId>)
      returns (acknowledged: bool, raised: bool)
      requires todo != [] && todo[0] == entry
      modifies `stream, `pending, `kafka
      ensures View(c, if raised then Idle else Publishing(todo[1..]))
              == Handled(old(View(c, Publishing(todo))), c, todo, failing)
      ensures raised <==> entry !in malformed && (entry in failing || entry !in old(pending))
      ensures acknowledged <==> entry !in malformed && !raised
      ensures !raised ==>
                var gone := if entry in malformed then {} else {entry};
                pending == old(pending) - gone && stream == old(stream) - gone && kafka == old(kafka) + gone
      ensures |pending| + (if acknowledged then 1 else 0) == |old(pending)|
    {
      if entry in malformed {
        assert pending - {} == pending;
        return false, false;
      }
      if entry in failing { return false, true; }
      kafka := kafka + {entry};
      if entry !in pending { return false, true; }
      assert pending.Keys == (pending - {entry}).Keys + {entry};
      pending, stream := pending - {entry}, stream - {entry};
      return true, false;
    }

    /** The loop of `_publish_entries`. */
    method PublishBatch(c: Consumer, batch: seq<EntryId>, failing: set<EntryId>) returns (published: nat, raised: bool)
      modifies `stream, `pending, `kafka
      ensures View(c, Idle) == RunToIdle(old(View(c, Publishing(batch))), c, failing)
      ensures raised == SomeRefused(batch, malformed, failing, old(pending.Keys))
      ensures !raised ==> kafka == old(kafka) + Decodable(batch, malformed)
      ensures !raised ==> stream == old(stream) - Decodable(batch, malformed)
      ensures published + |pending| == |old(pending)|
    {
      hide RunToIdle, Decodable, Handled;
      published, raised := 0, false;
      var todo := batch;
      while todo != []
        invariant published + |pending| == |old(pending)|
        invariant SomeRefused(todo, malformed, failing, pending.Keys)
               == SomeRefused(batch, malformed, failing, old(pending.Keys))
        invariant kafka + Decodable(todo, malformed) == old(kafka) + Decodable(batch, malformed)
        invariant stream - Decodable(todo, malformed) == old(stream) - Decodable(batch, malformed)
        invariant RunToIdle(View(c, Publishing(todo)), c, failing)
               == RunToIdle(old(View(c, Publishing(batch))), c, failing)
        decreases |todo|
      {
        HandlesOne(View(c, Publishing(todo)), c, todo, failing);
        DecodableTail(todo, malformed);
        var acknowledged;
        acknowledged, raised := PublishOne(c, todo[0], failing, todo);
        if raised {
          IdleStays(View(c, Idle), c, failing);
          return;
        }
        if acknowledged { published := published + 1; }
        todo := todo[1..];
      }
      NoneDecodable(malformed);
      IdleStays(View(c, Publishing([])), c, failing);
    }

    /** `_publish_entries`, shut down after `patience` entries. It raises exactly when Kafka rejects
        an entry or takes one that is not pending any more; otherwise every decodable entry is in
        Kafka and out of the stream, and each has left the pending list. */
    method PublishEntries(c: Consumer, entries: seq<EntryId>, failing: set<EntryId>, patience: nat)
      returns (published: nat, raised: bool)
      modifies `stream, `pending, `kafka
      ensures var batch := if patience < |entries| then entries[..patience] else entries;
              && View(c, Idle) == RunToIdle(old(View(c, Publishing(batch))), c, failing)
              && (raised <==> exists i :: 0 <= i < |batch| && Refused(batch, i, malformed, failing, old(pending.Keys)))
              && (!raised ==> kafka == old(kafka) + Decodable(batch, malformed))
              && (!raised ==> stream == old(stream) - Decodable(batch, malformed))
      ensures published + |pending| == |old(pending)|
    {
      hide RunToIdle, Decodable, SomeRefused, Refused;
      var batch := if patience < |entries| then entries[..patience] else entries;
      SomeRefusedMeans(batch, malformed, failing, pending.Keys);
      published, raised := PublishBatch(c, batch, failing);
    }
  }

  /** Some entry is refused, seen from the front of the batch. */
  predicate SomeRefused(todo: seq<EntryId>, malformed: set<EntryId>, failing: set<EntryId>, pending: set<EntryId>) {
    todo != [] &&
    if todo[0] in malformed then SomeRefused(todo[1..], malformed, failing, pending)
    else todo[0] in failing || todo[0] !in pending || SomeRefused(todo[1..], malformed, failing, pending - {todo[0]})
  }

  lemma {:induction false} SomeRefusedMeans(
    todo: seq<EntryId>, malformed: set<EntryId>, failing: set<EntryId>, pending: set<EntryId>)
    ensures SomeRefused(todo, malformed, failing, pending)
            <==> exists i :: 0 <= i < |todo| && Refused(todo, i, malformed, failing, pending)
  {
    if todo == [] {
    } else {
      var first, rest := todo[0], todo[1..];
      var left := if first in malformed then pending else pending - {first};
      SomeRefusedMeans(rest, malformed, failing, left);
      forall i | 0 <= i < |rest| && !(first !in malformed && (first in failing || first !in pending))
        ensures Refused(rest, i, malformed, failing, left) == Refused(todo, i + 1, malformed, failing, pending)
      {
        RefusedInTail(todo, i, malformed, failing, pending);
      }
      if SomeRefused(todo, malformed, failing, pending) {
        if first !in malformed && (first in failing || first !in pending) {
          assert Refused(todo, 0, malformed, failing, pending);
        } else {
          var i :| 0 <= i < |rest| && Refused(rest, i, malformed, failing, left);
          assert Refused(todo, i + 1, malformed, failing, pending);
        }
      } else {
        assert !Refused(todo, 0, malformed, failing, pending);
        forall i | 0 < i < |todo| ensures !Refused(todo, i, malformed, failing, pending) {
          assert !Refused(rest, i - 1, malformed, failing, left);
        }
      }
    }
  }

  lemma RefusedInTail(todo: seq<EntryId>, i: nat, malformed: set<EntryId>, failing: set<EntryId>, pending: set<EntryId>)
    requires todo != [] && i < |todo| - 1
    ensures var left := if todo[0] in malformed then pending else pending - {todo[0]};
            Refused(todo[1..], i, malformed, failing, left) == Refused(todo, i + 1, malformed, failing, pending)
  {
    assert todo[..i + 1] == [todo[0]] + todo[1..][..i];
  }

  function Decodable(entries: seq<EntryId>, malformed: set<EntryId>): set<EntryId> {
    set e | e in entries && e !in malformed
  }

  lemma NoneDecodable(malformed: set<EntryId>)
    ensures Decodable([], malformed) == {}
  {
  }

  lemma DecodableTail(todo: seq<EntryId>, malformed: set<EntryId>)
    requires todo != []
    ensures Decodable(todo, malformed)
            == Decodable(todo[1..], malformed) + if todo[0] in malformed then {} else {todo[0]}
  {
    assert todo == [todo[0]] + todo[1..];
  }

  function Next(s: State, step: Step): State {
    match step
    case Write(decodes) =>
      var e := s.written + 1;
      s.(written := e, stream := s.stream + {e}, malformed := if decodes then s.malformed else s.malformed + {e})
    case ReadNew(c, upTo, batch) =>
      // XREADGROUP >: the oldest entries never delivered, now pending for c
      if PcOf(s, c) == Idle && s.delivered <= upTo <= s.written && Unread(s, upTo, batch)
      then SetPc(s.(delivered := upTo, pending := s.pending + Claimed(batch, c)), c, Publishing(batch)) else s
    case Reclaim(c, batch) =>
      // XAUTOCLAIM: entries pending for anyone that are still in the stream
      if PcOf(s, c) == Idle && forall e :: e in batch ==> e in s.pending && e in s.stream
      then SetPc(s.(pending := s.pending + Claimed(batch, c)), c, Publishing(batch)) else s
    case Advance(c, sendFails) => Progress(s, c, sendFails)
    case Fail(c) => SetPc(s, c, Idle)
  }

  function Execute(s: State, steps: seq<Step>): State {
    if steps == [] then s else Next(Execute(s, steps[..|steps| - 1]), steps[|steps| - 1])
  }

  /** Where an entry may be. Nothing written is lost: it is in the stream or in Kafka. Whatever is
      still in the stream can still be read or reclaimed. A malformed entry stays and never
      reaches Kafka. */
  predicate EntryOk(s: State, e: EntryId) {
    && (1 <= e <= s.written ==> e in s.stream || e in s.kafka)
    && (e in s.stream ==> 1 <= e <= s.written)
    && (e in s.stream && e <= s.delivered ==> e in s.pending)
    && (e in s.pending ==> e in s.stream)
    && (e in s.malformed ==> e in s.stream && e !in s.kafka)
    && (e in s.kafka ==> 1 <= e <= s.written)
  }

  predicate RelayOk(s: State, c: Consumer) {
    match PcOf(s, c)
    case Idle => true
    case Publishing(todo) => forall e :: e in todo ==> 1 <= e <= s.written
    case Acknowledged(e, todo) =>
      e in s.kafka && e !in s.malformed && (forall x :: x in todo ==> 1 <= x <= s.written)
  }

  ghost predicate Inv(s: State) {
    s.delivered <= s.written && (forall e :: EntryOk(s, e)) && (forall c :: RelayOk(s, c))
  }

  lemma WriteKeeps(s: State, decodes: bool)
    requires Inv(s)
    ensures Inv(Next(s, Write(decodes)))
  {
    var s' := Next(s, Write(decodes));
    forall e ensures EntryOk(s', e) { assert EntryOk(s, e); assert EntryOk(s, s'.written); }
    forall c ensures RelayOk(s', c) { assert RelayOk(s, c); assert EntryOk(s, s'.written); }
  }

  lemma ReadKeeps(s: State, step: Step)
    requires Inv(s) && (step.ReadNew? || step.Reclaim? || step.Fail?)
    ensures Inv(Next(s, step))
  {
    var s' := Next(s, step);
    forall e ensures EntryOk(s', e) { assert EntryOk(s, e); }
    forall c ensures RelayOk(s', c) {
      assert RelayOk(s, c);
      if !step.Fail? { forall e | e in step.batch ensures 1 <= e <= s.written || s' == s { assert EntryOk(s, e); } }
    }
  }

  lemma ProgressKeeps(s: State, c: Consumer, sendFails: bool)
    requires Inv(s)
    ensures Inv(Progress(s, c, sendFails))
  {
    var s' := Progress(s, c, sendFails);
    assert RelayOk(s, c);
    match PcOf(s, c) {
      case Publishing(todo) => if todo != [] { assert todo[0] in todo && forall x :: x in todo[1..] ==> x in todo; }
      case _ =>
    }
    forall e ensures EntryOk(s', e) { assert EntryOk(s, e); }
    forall x ensures RelayOk(s', x) { assert RelayOk(s, x); }
  }

  lemma {:induction false} Reachable(steps: seq<Step>)
    ensures Inv(Execute(EMPTY, steps))
  {
    hide Next;
    if steps == [] {
    } else {
      var before, step := Execute(EMPTY, steps[..|steps| - 1]), steps[|steps| - 1];
      Reachable(steps[..|steps| - 1]);
      match step
      case Write(d) => WriteKeeps(before, d);
      case Advance(c, f) => AdvanceKeeps(before, c, f);
      case _ => ReadKeeps(before, step);
    }
  }

  lemma AdvanceKeeps(s: State, c: Consumer, sendFails: bool)
    requires Inv(s)
    ensures Inv(Next(s, Advance(c, sendFails)))
  {
    ProgressKeeps(s, c, sendFails);
  }

  /** At-least-once over crashes, retries, reclaims and several relays: every entry ever written
      is still in the Redis stream or has been acknowledged by Kafka, an entry in the stream is
      unread or pending and so can be read again, and a malformed entry is never removed. */
  lemma NothingIsLost(steps: seq<Step>, e: EntryId)
    requires var s := Execute(EMPTY, steps); 1 <= e <= s.written
    ensures var s := Execute(EMPTY, steps);
            && (e in s.stream || e in s.kafka)
            && (e in s.stream ==> e > s.delivered || e in s.pending)
            && (e in s.malformed ==> e in s.stream && e !in s.kafka)
  {
    Reachable(steps);
    assert EntryOk(Execute(EMPTY, steps), e);
  }

  /** Nor is anything stuck: an idle relay can take any decodable entry that is still in the stream,
      unread or pending for anyone, to Kafka, and then it is gone from the stream. */
  lemma EntryReachesKafka(steps: seq<Step>, e: EntryId, c: Consumer) returns (more: seq<Step>)
    requires var s := Execute(EMPTY, steps);
             e in s.stream && e <= s.delivered && e !in s.malformed && PcOf(s, c) == Idle
    ensures |more| == 3
    ensures var s' := Next(Next(Next(Execute(EMPTY, steps), more[0]), more[1]), more[2]);
            e in s'.kafka && e !in s'.stream && e !in s'.pending
  {
    hide Execute;
    Reachable(steps);
    var s := Execute(EMPTY, steps);
    assert EntryOk(s, e);
    more := [Reclaim(c, [e]), Advance(c, false), Advance(c, false)];
    var s1 := Next(s, more[0]);
    assert s1.relays[c] == Publishing([e]) && e in s1.pending;
  }

  /** An unread entry becomes pending for the relay that reads it. */
  lemma UnreadIsRead(steps: seq<Step>, e: EntryId, c: Consumer, upTo: nat, batch: seq<EntryId>)
    requires var s := Execute(EMPTY, steps);
             && PcOf(s, c) == Idle && s.delivered <= upTo <= s.written && Unread(s, upTo, batch)
             && e in s.stream && s.delivered < e <= upTo
    ensures var s' := Next(Execute(EMPTY, steps), ReadNew(c, upTo, batch));
            e in s'.pending && s'.pending[e] == c && e in s'.stream && s'.delivered == upTo
  {
    hide Execute;
  }
}
