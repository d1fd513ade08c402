/** The bounded, idempotent publisher of per-workflow events: a capped stream, a hash that
    remembers the stream id of every retained record, and a sorted set that decides which
    record ids are forgotten. */
module EventPublisher {
  import opened RunTypes

  type RecordId = nat
  type StreamId = nat

  /** An entry of the stream; its payload carries the record id. */
  datatype Published = Published(id: StreamId, record: RecordId, payload: nat)

  /** A member of the sorted set. */
  datatype Ranked = Ranked(record: RecordId, score: nat)

  datatype State = State(stream: seq<Published>, records: map<RecordId, StreamId>, order: seq<Ranked>, nextId: StreamId)

  const EMPTY: State := State([], map[], [], 0)

  /** Sorted sets order by score, then by member. */
  predicate Before(a: Ranked, b: Ranked) {
    a.score < b.score || (a.score == b.score && a.record < b.record)
  }

  /** ZADD of a new member. */
  function Insert(order: seq<Ranked>, x: Ranked): seq<Ranked> {
    if order == [] then [x]
    else if Before(x, order[0]) then [x] + order
    else [order[0]] + Insert(order[1..], x)
  }

  function Members(order: seq<Ranked>): set<RecordId> {
    set x | x in order :: x.record
  }

  function StreamRecords(stream: seq<Published>): set<RecordId> {
    set x | x in stream :: x.record
  }

  /** _PUBLISH_LUA at server time `clock`. */
  function Publish(s: State, record: RecordId, payload: nat, clock: nat, maxlen: nat): (State, StreamId) {
    if record in s.records then (s, s.records[record])
    else
      var ranked := Insert(s.order, Ranked(record, clock));
      var overflow := if |ranked| > maxlen then |ranked| - maxlen else 0;
      (State(Newest(s.stream + [Published(s.nextId, record, payload)], maxlen),
             s.records[record := s.nextId] - Members(ranked[..overflow]),
             ranked[overflow..],
             s.nextId + 1),
       s.nextId)
  }

  // ----- the script, command by command

  class Channel {
    var stream: seq<Published>
    var records: map<RecordId, StreamId>
    var order: seq<Ranked>
    var nextId: StreamId

    function Snapshot(): State
      reads this
    {
      State(stream, records, order, nextId)
    }

    method PublishScript(record: RecordId, payload: nat, clock: nat, maxlen: nat) returns (id: StreamId)
      modifies this
      ensures (Snapshot(), id) == Publish(old(Snapshot()), record, payload, clock, maxlen)
    {
      hide Insert, Members;
      if record in records { return records[record]; }
      id := nextId;
      nextId := nextId + 1;
      stream := stream + [Published(id, record, payload)];
      stream := if |stream| > maxlen then stream[|stream| - maxlen..] else stream;
      records := records[record := id];
      order := Insert(order, Ranked(record, clock));
      var overflow := if |order| > maxlen then |order| - maxlen else 0;
      records := Forget(records, order[..overflow]);
      order := order[overflow..];
    }
  }

  /** HDEL of the expired members, one field after the other. */
  method Forget(records: map<RecordId, StreamId>, expired: seq<Ranked>) returns (kept: map<RecordId, StreamId>)
    ensures kept == records - Members(expired)
  {
    kept := records;
    for n := 0 to |expired|
      invariant kept == records - Members(expired[..n])
    {
      assert expired[..n + 1] == expired[..n] + [expired[n]];
      assert Members(expired[..n + 1]) == Members(expired[..n]) + {expired[n].record};
      kept := kept - {expired[n].record};
    }
    assert expired[..|expired|] == expired;
  }

  // ----- stream, hash and sorted set describe the same records

  /** The three structures agree entry by entry. */
  ghost predicate Agree(s: State) {
    && |s.order| == |s.stream|
    && (forall i :: 0 <= i < |s.stream| ==>
          && s.order[i].record == s.stream[i].record
          && s.stream[i].record in s.records && s.records[s.stream[i].record] == s.stream[i].id
          && s.stream[i].id < s.nextId)
    && (forall i, j :: 0 <= i < j < |s.stream| ==>
          s.stream[i].record != s.stream[j].record && s.stream[i].id < s.stream[j].id)
    && s.records.Keys == StreamRecords(s.stream)
  }

  ghost predicate Inv(s: State, maxlen: nat, last: int) {
    && Agree(s) && |s.stream| <= maxlen
    && (forall i :: 0 <= i < |s.order| ==> s.order[i].score <= last)
  }

  lemma {:induction false} InsertLast(order: seq<Ranked>, x: Ranked)
    requires forall i :: 0 <= i < |order| ==> order[i].score < x.score
    ensures Insert(order, x) == order + [x]
  {
    if order == [] {
    } else {
      InsertLast(order[1..], x);
      assert order == [order[0]] + order[1..];
    }
  }

  lemma RecordsOfMore(stream: seq<Published>, x: Published)
    ensures StreamRecords(stream + [x]) == StreamRecords(stream) + {x.record}
  {
    assert forall y :: y in stream + [x] <==> y in stream || y == x;
  }

  lemma RecordsOfTail(stream: seq<Published>)
    requires stream != [] && forall i, j :: 0 <= i < j < |stream| ==> stream[i].record != stream[j].record
    ensures StreamRecords(stream[1..]) == StreamRecords(stream) - {stream[0].record}
  {
    assert stream == [stream[0]] + stream[1..];
    forall y | y in stream[1..] ensures y.record != stream[0].record {
      var i :| 0 <= i < |stream[1..]| && stream[1..][i] == y;
      assert stream[i + 1] == y;
    }
  }

  lemma Appending(s: State, record: RecordId, payload: nat, clock: nat)
    requires Agree(s) && record !in s.records
    ensures Agree(Added(s, record, payload, clock))
  {
    hide StreamRecords;
    RecordsOfMore(s.stream, Published(s.nextId, record, payload));
    forall i | 0 <= i < |s.stream| ensures s.stream[i].record != record { }
  }

  /** Dropping the oldest entry drops it from all three. */
  lemma Evicting(s: State)
    requires Agree(s) && s.stream != []
    ensures Agree(State(s.stream[1..], s.records - Members(s.order[..1]), s.order[1..], s.nextId))
  {
    hide StreamRecords, Members;
    RecordsOfTail(s.stream);
    assert Members(s.order[..1]) == {s.stream[0].record} by { OneMember(s.order); }
  }

  lemma OneMember(order: seq<Ranked>)
    requires order != []
    ensures Members(order[..1]) == {order[0].record}
  {
    assert order[..1] == [order[0]];
  }

  /** The state after the three additions and before any trimming. */
  function Added(s: State, record: RecordId, payload: nat, clock: nat): State {
    State(s.stream + [Published(s.nextId, record, payload)], s.records[record := s.nextId],
          s.order + [Ranked(record, clock)], s.nextId + 1)
  }

  /** At a later server time and with the same bound, a publish adds and evicts at most one entry. */
  lemma PublishShape(s: State, record: RecordId, payload: nat, clock: nat, maxlen: nat, last: int)
    requires Inv(s, maxlen, last) && clock > last && record !in s.records
    ensures var added := Added(s, record, payload, clock);
            Publish(s, record, payload, clock, maxlen).0
            == if |added.stream| <= maxlen then added
               else State(added.stream[1..], added.records - Members(added.order[..1]), added.order[1..], added.nextId)
  {
    hide Insert, Members;
    var added := Added(s, record, payload, clock);
    InsertLast(s.order, Ranked(record, clock));
    assert |s.order| == |s.stream|;
    if |added.stream| <= maxlen {
      assert added.order[..0] == [] && added.order[0..] == added.order;
      NoMembers();
      assert added.records - {} == added.records;
    }
  }

  lemma NoMembers()
    ensures Members([]) == {}
  {
  }

  /** One publish at a later server time, with the same bound. */
  lemma PublishKeeps(s: State, record: RecordId, payload: nat, clock: nat, maxlen: nat, last: int)
    requires Inv(s, maxlen, last) && clock > last
    ensures Inv(Publish(s, record, payload, clock, maxlen).0, maxlen, clock)
  {
    hide Agree, Insert, Members, Newest;
    if record !in s.records {
      PublishShape(s, record, payload, clock, maxlen, last);
      Appending(s, record, payload, clock);
      var added := Added(s, record, payload, clock);
      if |added.stream| > maxlen { Evicting(added); }
    }
  }

  datatype Call = Call(record: RecordId, payload: nat, clock: nat)

  function PublishAll(calls: seq<Call>, maxlen: nat): State {
    if calls == [] then EMPTY
    else
      var c := calls[|calls| - 1];
      Publish(PublishAll(calls[..|calls| - 1], maxlen), c.record, c.payload, c.clock, maxlen).0
  }

  /** The server clock is read once per call and strictly increases. */
  predicate ClockAdvances(calls: seq<Call>) {
    forall i, j :: 0 <= i < j < |calls| ==> calls[i].clock < calls[j].clock
  }

  lemma {:induction false} PublishAllInv(calls: seq<Call>, maxlen: nat)
    requires ClockAdvances(calls)
    ensures Inv(PublishAll(calls, maxlen), maxlen, if calls == [] then -1 else calls[|calls| - 1].clock)
  {
    hide Publish;
    if calls == [] {
      assert StreamRecords([]) == {};
    } else {
      var shorter, c := calls[..|calls| - 1], calls[|calls| - 1];
      PublishAllInv(shorter, maxlen);
      PublishKeeps(PublishAll(shorter, maxlen), c.record, c.payload, c.clock, maxlen,
                   if shorter == [] then -1 else shorter[|shorter| - 1].clock);
    }
  }

  /** After any publishes: at most `maxlen` entries, no record twice in the stream, and hash, sorted
      set and stream hold the same records; the hash gives each its own stream id. */
  lemma IndexMatchesStream(calls: seq<Call>, maxlen: nat)
    requires ClockAdvances(calls)
    ensures var s := PublishAll(calls, maxlen);
            && |s.stream| <= maxlen
            && (forall i, j :: 0 <= i < j < |s.stream| ==> s.stream[i].record != s.stream[j].record)
            && s.records.Keys == StreamRecords(s.stream) == Members(s.order)
            && (forall i :: 0 <= i < |s.stream| ==> s.records[s.stream[i].record] == s.stream[i].id)
  {
    hide PublishAll, StreamRecords, Members;
    PublishAllInv(calls, maxlen);
    SameMembers(PublishAll(calls, maxlen));
  }

  lemma SameMembers(s: State)
    requires Agree(s)
    ensures StreamRecords(s.stream) == Members(s.order)
  {
    forall r ensures r in StreamRecords(s.stream) <==> r in Members(s.order) {
      if r in StreamRecords(s.stream) {
        var i :| 0 <= i < |s.stream| && s.stream[i].record == r;
        assert s.order[i] in s.order;
      }
      if r in Members(s.order) {
        var i :| 0 <= i < |s.order| && s.order[i].record == r;
        assert s.stream[i] in s.stream;
      }
    }
  }

  /** Re-publishing a retained record returns its original stream id and adds nothing. */
  lemma RepublishIsIdempotent(calls: seq<Call>, maxlen: nat, i: nat, payload: nat, clock: nat)
    requires ClockAdvances(calls) && i < |PublishAll(calls, maxlen).stream|
    ensures var s := PublishAll(calls, maxlen);
            Publish(s, s.stream[i].record, payload, clock, maxlen) == (s, s.stream[i].id)
  {
    PublishAllInv(calls, maxlen);
  }

  /** A publish is readable: a record that is not retained is appended with its payload under the id
      that is returned, above all earlier ids, and only the oldest entries make room for it. */
  lemma PublishIsRead(s: State, record: RecordId, payload: nat, clock: nat, maxlen: nat)
    requires record !in s.records && maxlen > 0
    ensures var (s', id) := Publish(s, record, payload, clock, maxlen);
            && id == s.nextId && s'.nextId == id + 1
            && s'.stream != [] && s'.stream[|s'.stream| - 1] == Published(id, record, payload)
            && |s'.stream| == (if |s.stream| < maxlen then |s.stream| + 1 else maxlen)
            && s'.stream == (s.stream + [Published(id, record, payload)])[|s.stream| + 1 - |s'.stream|..]
  {
    hide Insert, Members;
  }

  // ----- without a strict clock

  predicate NoRepeats(ids: seq<RecordId>) {
    forall i, j :: 0 <= i < j < |ids| ==> ids[i] != ids[j]
  }

  function StreamIds(stream: seq<Published>): seq<RecordId> {
    seq(|stream|, i requires 0 <= i < |stream| => stream[i].record)
  }

  function OrderIds(order: seq<Ranked>): seq<RecordId> {
    seq(|order|, i requires 0 <= i < |order| => order[i].record)
  }

  /** Hash, sorted set and stream hold the same records, in whatever order. */
  predicate SameRecords(s: State) {
    && |s.order| == |s.stream| && NoRepeats(StreamIds(s.stream)) && NoRepeats(OrderIds(s.order))
    && s.records.Keys == StreamRecords(s.stream) == Members(s.order)
  }

  /** The sorted set also lists them in the order of the stream. */
  predicate Aligned(s: State) {
    |s.order| == |s.stream| && forall i :: 0 <= i < |s.stream| ==> s.order[i].record == s.stream[i].record
  }

  lemma {:induction false} InsertMembers(order: seq<Ranked>, x: Ranked)
    ensures |Insert(order, x)| == |order| + 1
    ensures forall y :: y in Insert(order, x) <==> y in order || y == x
    ensures Insert(order, x)[0] == if order == [] || Before(x, order[0]) then x else order[0]
  {
    if order == [] {
    } else if Before(x, order[0]) {
    } else {
      InsertMembers(order[1..], x);
      assert order == [order[0]] + order[1..];
    }
  }

  lemma {:induction false} InsertDistinct(order: seq<Ranked>, x: Ranked)
    requires NoRepeats(OrderIds(order)) && x.record !in Members(order)
    ensures NoRepeats(OrderIds(Insert(order, x)))
  {
    var after := Insert(order, x);
    InsertMembers(order, x);
    assert forall i :: 0 <= i < |order| ==> OrderIds(order)[i] == order[i].record;
    forall i | 0 <= i < |order| ensures order[i].record != x.record { assert order[i] in order; }
    if order == [] {
    } else if Before(x, order[0]) {
      assert after == [x] + order;
    } else {
      var rest := order[1..];
      assert forall i :: 0 <= i < |rest| ==> OrderIds(rest)[i] == OrderIds(order)[i + 1];
      InsertDistinct(rest, x);
      var tail := Insert(rest, x);
      InsertMembers(rest, x);
      assert after == [order[0]] + tail;
      forall i, j | 0 <= i < j < |after| ensures OrderIds(after)[i] != OrderIds(after)[j] {
        if i == 0 {
          assert tail[j - 1] in tail;
        } else {
          assert OrderIds(tail)[i - 1] != OrderIds(tail)[j - 1];
        }
      }
    }
  }

  lemma RecordAt(s: State)
    ensures forall i :: 0 <= i < |s.stream| ==>
              StreamIds(s.stream)[i] == s.stream[i].record && s.stream[i].record in StreamRecords(s.stream)
    ensures forall i :: 0 <= i < |s.order| ==>
              OrderIds(s.order)[i] == s.order[i].record && s.order[i].record in Members(s.order)
  {
    assert forall i :: 0 <= i < |s.stream| ==> s.stream[i] in s.stream;
    assert forall i :: 0 <= i < |s.order| ==> s.order[i] in s.order;
  }

  /** The state after the three additions, wherever the new record is ranked. */
  function Ranking(s: State, record: RecordId, payload: nat, clock: nat): State {
    State(s.stream + [Published(s.nextId, record, payload)], s.records[record := s.nextId],
          Insert(s.order, Ranked(record, clock)), s.nextId + 1)
  }

  /** The oldest entry leaves the stream, the lowest rank leaves the index. */
  function DropOldest(s: State): State
    requires s.stream != [] && s.order != []
  {
    State(s.stream[1..], s.records - {s.order[0].record}, s.order[1..], s.nextId)
  }

  lemma PublishRanks(s: State, record: RecordId, payload: nat, clock: nat, maxlen: nat)
    requires |s.order| == |s.stream| <= maxlen && record !in s.records
    ensures var t := Ranking(s, record, payload, clock);
            && |t.order| == |t.stream| == |s.stream| + 1
            && Publish(s, record, payload, clock, maxlen).0 == if |s.stream| < maxlen then t else DropOldest(t)
  {
    hide Insert, Members;
    var t := Ranking(s, record, payload, clock);
    InsertMembers(s.order, Ranked(record, clock));
    if |s.stream| < maxlen {
      assert t.order[..0] == [] && t.order[0..] == t.order;
      NoMembers();
      assert t.records - {} == t.records;
    } else {
      OneMember(t.order);
    }
  }

  lemma RankingSame(s: State, record: RecordId, payload: nat, clock: nat)
    requires SameRecords(s) && record !in s.records
    ensures SameRecords(Ranking(s, record, payload, clock))
  {
    hide Insert, StreamIds, OrderIds, StreamRecords, Members;
    var t, x, p := Ranking(s, record, payload, clock), Ranked(record, clock), Published(s.nextId, record, payload);
    InsertMembers(s.order, x);
    InsertDistinct(s.order, x);
    RecordsOfMore(s.stream, p);
    MembersOfMore(s.order, x);
    assert NoRepeats(StreamIds(t.stream)) by { StreamDistinct(s, p); }
  }

  lemma MembersOfMore(order: seq<Ranked>, x: Ranked)
    ensures Members(Insert(order, x)) == Members(order) + {x.record}
  {
    hide Insert;
    InsertMembers(order, x);
  }

  lemma StreamDistinct(s: State, p: Published)
    requires NoRepeats(StreamIds(s.stream)) && p.record !in StreamRecords(s.stream)
    ensures NoRepeats(StreamIds(s.stream + [p]))
  {
    RecordAt(s);
  }

  lemma DropAgreesIff(t: State)
    requires SameRecords(t) && t.stream != []
    ensures SameRecords(DropOldest(t)) <==> t.order[0].record == t.stream[0].record
  {
    RecordAt(t);
    var d := DropOldest(t);
    assert forall i :: 0 <= i < |d.stream| ==> StreamIds(d.stream)[i] == StreamIds(t.stream)[i + 1];
    assert forall i :: 0 <= i < |d.order| ==> OrderIds(d.order)[i] == OrderIds(t.order)[i + 1];
    assert forall i, j :: 0 <= i < j < |t.stream| ==> t.stream[i].record != t.stream[j].record by {
      assert forall i :: 0 <= i < |t.stream| ==> StreamIds(t.stream)[i] == t.stream[i].record;
    }
    RecordsOfTail(t.stream);
    MembersOfTail(t.order);
    hide StreamRecords, Members, StreamIds, OrderIds;
    assert d.records.Keys == Members(d.order) == t.records.Keys - {t.order[0].record};
    assert StreamRecords(d.stream) == t.records.Keys - {t.stream[0].record};
  }

  lemma MembersOfTail(order: seq<Ranked>)
    requires order != [] && NoRepeats(OrderIds(order))
    ensures Members(order[1..]) == Members(order) - {order[0].record}
  {
    assert order == [order[0]] + order[1..];
    assert forall i :: 0 <= i < |order| ==> OrderIds(order)[i] == order[i].record;
    forall y | y in order[1..] ensures y.record != order[0].record {
      var i :| 0 <= i < |order[1..]| && order[1..][i] == y;
      assert order[i + 1] == y;
    }
  }

  /** Exactly when a publish keeps hash, sorted set and stream on the same records, for any clock:
      while there is room, or when the record that leaves the index is the one that leaves the
      stream, that is, the lowest rank is the oldest entry and the new record is not ranked below it. */
  lemma PublishAgreesIff(s: State, record: RecordId, payload: nat, clock: nat, maxlen: nat)
    requires SameRecords(s) && |s.stream| <= maxlen && record !in s.records
    ensures SameRecords(Publish(s, record, payload, clock, maxlen).0)
            <==> || maxlen == 0 || |s.stream| < maxlen
                 || (s.order[0].record == s.stream[0].record && !Before(Ranked(record, clock), s.order[0]))
  {
    hide Insert, StreamRecords, Members, StreamIds, OrderIds, NoRepeats;
    var t := Ranking(s, record, payload, clock);
    PublishRanks(s, record, payload, clock, maxlen);
    RankingSame(s, record, payload, clock);
    InsertMembers(s.order, Ranked(record, clock));
    if |s.stream| == maxlen {
      DropAgreesIff(t);
      if maxlen > 0 { assert s.stream[0].record != record by { RecordAt(s); } }
    }
  }

  /** The order of the index goes on matching the stream exactly when the new record is ranked last. */
  lemma AlignmentSurvivesIff(s: State, record: RecordId, payload: nat, clock: nat, maxlen: nat)
    requires SameRecords(s) && Aligned(s) && |s.stream| <= maxlen && record !in s.records
    ensures Aligned(Publish(s, record, payload, clock, maxlen).0)
            <==> maxlen == 0 || forall i :: 0 <= i < |s.order| ==> !Before(Ranked(record, clock), s.order[i])
  {
    hide Insert, StreamRecords, Members, StreamIds, OrderIds, NoRepeats, SameRecords;
    var t, x := Ranking(s, record, payload, clock), Ranked(record, clock);
    PublishRanks(s, record, payload, clock, maxlen);
    forall i | 0 <= i < |s.order| ensures s.order[i].record != record { NotThere(s, record, i); }
    var n := InsertPlace(s.order, x);
    if n < |s.order| {
      assert t.order[n + 1].record == s.stream[n].record;
      assert t.order[|s.order|].record == s.order[|s.order| - 1].record;
      assert t.stream[|s.order|].record == record;
      assert !Aligned(t);
      if |s.stream| == maxlen {
        var d := DropOldest(t);
        assert d.order[maxlen - 1] == t.order[maxlen] && d.stream[maxlen - 1] == t.stream[maxlen];
      }
    }
  }

  lemma NotThere(s: State, record: RecordId, i: nat)
    requires SameRecords(s) && record !in s.records && i < |s.order|
    ensures s.order[i].record != record
  {
    RecordAt(s);
  }

  lemma {:induction false} InsertPlace(order: seq<Ranked>, x: Ranked) returns (n: nat)
    ensures n <= |order| && Insert(order, x) == order[..n] + [x] + order[n..]
    ensures forall i :: 0 <= i < n ==> !Before(x, order[i])
    ensures n < |order| ==> Before(x, order[n])
  {
    if order == [] || Before(x, order[0]) {
      n := 0;
      assert Insert(order, x) == [x] + order;
    } else {
      var m := InsertPlace(order[1..], x);
      n := m + 1;
      assert order == [order[0]] + order[1..];
      assert order[..n] == [order[0]] + order[1..][..m];
      assert order[n..] == order[1..][m..];
      assert forall i :: 1 <= i < n ==> order[i] == order[1..][i - 1];
    }
  }

  /** Such a state is reached: two publishes in the same instant, the second with the smaller
      record id, and room for one. The record just published is in the stream but forgotten by
      the index, so publishing it again is not idempotent: it gets another stream id. */
  lemma EqualClockForgetsNewest(payload: nat)
    ensures var calls := [Call(5, payload, 10), Call(3, payload, 10)];
            var s := PublishAll(calls, 1);
            && StreamRecords(s.stream) == {3} && 3 !in s.records
            && Publish(s, 3, payload, 10, 1).1 != s.stream[0].id
  {
    var calls := [Call(5, payload, 10), Call(3, payload, 10)];
    var one := [Call(5, payload, 10)];
    assert calls[..1] == one && one[..0] == [];
    var s1 := PublishAll(one, 1);
    FirstPublish(payload);
    assert PublishAll([], 1) == EMPTY;
    assert s1 == State([Published(0, 5, payload)], map[5 := 0], [Ranked(5, 10)], 1);
    SecondPublish(s1, payload);
    assert PublishAll(calls, 1) == Publish(s1, 3, payload, 10, 1).0;
  }

  /** A later publish can suffer from an earlier tie: 5 and 3 are published in one instant with room
      for both, so the index ranks 3 first; when 7 follows, the stream drops 5 and the index 3. */
  lemma EarlierTieForgetsRetained(payload: nat)
    ensures var s := PublishAll([Call(5, payload, 10), Call(3, payload, 10)], 2);
            var s' := PublishAll([Call(5, payload, 10), Call(3, payload, 10), Call(7, payload, 11)], 2);
            && SameRecords(s) && !Aligned(s)
            && StreamRecords(s'.stream) == {3, 7} && s'.records.Keys == {5, 7}
  {
    var three := [Call(5, payload, 10), Call(3, payload, 10), Call(7, payload, 11)];
    var two, one := [Call(5, payload, 10), Call(3, payload, 10)], [Call(5, payload, 10)];
    assert three[..2] == two && two[..1] == one && one[..0] == [];
    assert PublishAll([], 2) == EMPTY;
    var s1, s2 := PublishAll(one, 2), PublishAll(two, 2);
    TieWithRoom(payload);
    ThenDrops(payload);
  }

  lemma TieWithRoom(payload: nat)
    ensures Publish(EMPTY, 5, payload, 10, 2).0 == State([Published(0, 5, payload)], map[5 := 0], [Ranked(5, 10)], 1)
    ensures var s := State([Published(0, 5, payload)], map[5 := 0], [Ranked(5, 10)], 1);
            Publish(s, 3, payload, 10, 2).0 == Tied(payload)
    ensures SameRecords(Tied(payload)) && !Aligned(Tied(payload))
  {
    var s := State([Published(0, 5, payload)], map[5 := 0], [Ranked(5, 10)], 1);
    PublishRanks(EMPTY, 5, payload, 10, 2);
    PublishRanks(s, 3, payload, 10, 2);
    assert EMPTY.records[5 := 0] == map[5 := 0];
    assert Insert(s.order, Ranked(3, 10)) == [Ranked(3, 10), Ranked(5, 10)];
    var t := Tied(payload);
    assert StreamIds(t.stream) == [5, 3] && OrderIds(t.order) == [3, 5];
    assert StreamRecords(t.stream) == {3, 5} && Members(t.order) == {3, 5};
  }

  function Tied(payload: nat): State {
    State([Published(0, 5, payload), Published(1, 3, payload)], map[5 := 0, 3 := 1], [Ranked(3, 10), Ranked(5, 10)], 2)
  }

  lemma ThenDrops(payload: nat)
    ensures var s := Publish(Tied(payload), 7, payload, 11, 2).0;
            StreamRecords(s.stream) == {3, 7} && s.records.Keys == {5, 7}
  {
    var t := Tied(payload);
    PublishRanks(t, 7, payload, 11, 2);
    InsertLast(t.order, Ranked(7, 11));
    var d := DropOldest(Ranking(t, 7, payload, 11));
    assert d.stream == [Published(1, 3, payload), Published(2, 7, payload)];
    assert d.records.Keys == {5, 7};
  }

  lemma FirstPublish(payload: nat)
    ensures Publish(EMPTY, 5, payload, 10, 1).0 == State([Published(0, 5, payload)], map[5 := 0], [Ranked(5, 10)], 1)
  {
    assert Members([]) == {};
    var ranked := Insert([], Ranked(5, 10));
    assert ranked == [Ranked(5, 10)] && ranked[..0] == [] && ranked[0..] == ranked;
    var records: map<RecordId, StreamId> := map[];
    assert records[5 := 0] - {} == map[5 := 0];
  }

  lemma SecondPublish(s: State, payload: nat)
    requires s == State([Published(0, 5, payload)], map[5 := 0], [Ranked(5, 10)], 1)
    ensures Publish(s, 3, payload, 10, 1).0 == State([Published(1, 3, payload)], map[5 := 0], [Ranked(5, 10)], 2)
  {
    var ranked := Insert(s.order, Ranked(3, 10));
    assert ranked == [Ranked(3, 10), Ranked(5, 10)];
    assert ranked[..1] == [Ranked(3, 10)] && Members(ranked[..1]) == {3};
    assert s.records[3 := 1] - {3} == map[5 := 0];
  }
}
