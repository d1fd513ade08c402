/** The incremental SSE parser of the browser client. Lines and fields follow sections 9.2.5 and
    9.2.6 of the WHATWG HTML Living Standard, except that an unterminated last block is
    flushed and that an event with `retry` but without `data` is reported. */
module SseParser {
  import opened RunTypes

  datatype SseEvent = SseEvent(data: string, event: Option<string>, id: Option<string>, retry: Option<nat>)

  // ----- one block

  function IndexOf(s: string, c: char): int
    ensures -1 <= IndexOf(s, c) < |s|
  {
    if s == [] then -1
    else if s[0] == c then 0
    else var i := IndexOf(s[1..], c); if i < 0 then -1 else i + 1
  }

  function Split(s: string, c: char): (lines: seq<string>)
    ensures lines != []
    decreases |s|
  {
    var i := IndexOf(s, c);
    if i < 0 then [s] else [s[..i]] + Split(s[i + 1..], c)
  }

  function Join(lines: seq<string>): string {
    if lines == [] then "" else if |lines| == 1 then lines[0] else lines[0] + "\n" + Join(lines[1..])
  }

  predicate AllDigits(s: string) {
    s != [] && forall i :: 0 <= i < |s| ==> '0' <= s[i] <= '9'
  }

  function ToNat(s: string): nat
    requires forall i :: 0 <= i < |s| ==> '0' <= s[i] <= '9'
  {
    if s == [] then 0 else ToNat(s[..|s| - 1]) * 10 + (s[|s| - 1] - '0') as nat
  }

  /** The accumulators of the loop over the lines of a block. */
  datatype Fields = Fields(data: seq<string>, event: Option<string>, id: Option<string>, retry: Option<nat>)

  function FieldName(line: string): string {
    var sep := IndexOf(line, ':');
    if sep < 0 then line else line[..sep]
  }

  function FieldValue(line: string): string {
    var sep := IndexOf(line, ':');
    var value := if sep < 0 then "" else line[sep + 1..];
    if value != [] && value[0] == ' ' then value[1..] else value
  }

  function ParseLine(f: Fields, line: string): Fields {
    if line == [] || line[0] == ':' then f
    else
      var name, value := FieldName(line), FieldValue(line);
      if name == "data" then f.(data := f.data + [value])
      else if name == "event" then f.(event := Some(value))
      else if name == "id" && '\0' !in value then f.(id := Some(value))
      else if name == "retry" && AllDigits(value) then f.(retry := Some(ToNat(value)))
      else f
  }

  function ParseLines(f: Fields, lines: seq<string>): Fields {
    if lines == [] then f else ParseLine(ParseLines(f, lines[..|lines| - 1]), lines[|lines| - 1])
  }

  /** The event of a block, if it has one, and the last event id after it. */
  function Block(block: string, id: Option<string>): (Option<SseEvent>, Option<string>) {
    var f := ParseLines(Fields([], None, id, None), Split(block, '\n'));
    (if f.data == [] && f.retry.None? then None else Some(SseEvent(Join(f.data), f.event, f.id, f.retry)), f.id)
  }

  function Emit(e: Option<SseEvent>): seq<SseEvent> {
    if e.Some? then [e.value] else []
  }

  // ----- what a block means

  /** A line with a field of that name; blank lines and comments have none. */
  predicate IsField(line: string, name: string) {
    line != [] && line[0] != ':' && FieldName(line) == name
  }

  /** The name is what precedes the first colon, the value what follows it, without one space. */
  lemma FieldMeans(name: string, value: string)
    requires ':' !in name
    ensures FieldName(name + ":" + value) == name
    ensures FieldValue(name + ":" + value) == if value != [] && value[0] == ' ' then value[1..] else value
    ensures FieldName(name) == name && FieldValue(name) == ""
  {
    IndexOfAt(name, ':', value);
    var line := name + ":" + value;
    assert line == name + [':'] + value;
    assert line[..|name|] == name && line[|name| + 1..] == value;
  }

  lemma {:induction false} IndexOfAt(a: string, c: char, rest: string)
    requires c !in a
    ensures IndexOf(a + [c] + rest, c) == |a| && IndexOf(a, c) == -1
  {
    if a == [] {
    } else {
      assert (a + [c] + rest)[1..] == a[1..] + [c] + rest;
      IndexOfAt(a[1..], c, rest);
    }
  }

  /** The values of the `data` lines, in order. */
  function DataOf(lines: seq<string>): seq<string> {
    if lines == [] then []
    else
      var line := lines[|lines| - 1];
      DataOf(lines[..|lines| - 1]) + if IsField(line, "data") then [FieldValue(line)] else []
  }

  predicate AnyText(value: string) { true }

  predicate NoNul(value: string) { '\0' !in value }

  /** The value of the last line with that field and a value that counts. */
  function LastField(lines: seq<string>, name: string, counts: string -> bool): Option<string> {
    if lines == [] then None
    else
      var line := lines[|lines| - 1];
      if IsField(line, name) && counts(FieldValue(line)) then Some(FieldValue(line))
      else LastField(lines[..|lines| - 1], name, counts)
  }

  lemma {:induction false} LastFieldMeans(lines: seq<string>, name: string, counts: string -> bool, i: nat)
    requires i < |lines| && IsField(lines[i], name) && counts(FieldValue(lines[i]))
    requires forall j :: i < j < |lines| ==> !(IsField(lines[j], name) && counts(FieldValue(lines[j])))
    ensures LastField(lines, name, counts) == Some(FieldValue(lines[i]))
    decreases |lines|
  {
    if i == |lines| - 1 {
    } else {
      LastFieldMeans(lines[..|lines| - 1], name, counts, i);
    }
  }

  /** Data lines add up, the last `event`, valid `id` and numeric `retry` count, all else is ignored. */
  lemma {:induction false} BlockMeans(f: Fields, lines: seq<string>)
    ensures var g := ParseLines(f, lines);
            var event, id := LastField(lines, "event", AnyText), LastField(lines, "id", NoNul);
            var retry := LastField(lines, "retry", AllDigits);
            && g.data == f.data + DataOf(lines)
            && g.event == (if event.Some? then event else f.event)
            && g.id == (if id.Some? then id else f.id)
            && (retry.Some? ==> AllDigits(retry.value))
            && g.retry == (if retry.Some? then Some(ToNat(retry.value)) else f.retry)
  {
    if lines == [] {
    } else {
      hide FieldName, FieldValue;
      BlockMeans(f, lines[..|lines| - 1]);
      OneLineMeans(ParseLines(f, lines[..|lines| - 1]), lines[|lines| - 1]);
    }
  }

  /** A block is an event exactly if it has a data line or a numeric retry; either way it can set the
      last event id. */
  lemma EventIff(block: string, id: Option<string>)
    ensures var lines := Split(block, '\n');
            && (Block(block, id).0.Some? <==> DataOf(lines) != [] || LastField(lines, "retry", AllDigits).Some?)
            && Block(block, id).1 == (if LastField(lines, "id", NoNul).Some? then LastField(lines, "id", NoNul) else id)
  {
    hide Split, ParseLines, DataOf, LastField;
    BlockMeans(Fields([], None, id, None), Split(block, '\n'));
  }

  lemma OneLineMeans(f: Fields, line: string)
    ensures var g, value := ParseLine(f, line), FieldValue(line);
            && g.data == f.data + (if IsField(line, "data") then [value] else [])
            && g.event == (if IsField(line, "event") then Some(value) else f.event)
            && g.id == (if IsField(line, "id") && NoNul(value) then Some(value) else f.id)
            && g.retry == (if IsField(line, "retry") && AllDigits(value) then Some(ToNat(value)) else f.retry)
  {
    hide FieldName, FieldValue, ToNat;
    assert "data" != "event" && "data" != "id" && "data" != "retry";
    assert "event" != "id" && "event" != "retry" && "id" != "retry";
  }

  // ----- a text

  /** CRLF, CR and LF all become LF. */
  function Norm(s: string): string {
    if s == [] then []
    else if s[0] != '\r' then [s[0]] + Norm(s[1..])
    else if |s| > 1 && s[1] == '\n' then "\n" + Norm(s[2..])
    else "\n" + Norm(s[1..])
  }

  function ReplaceCrLf(s: string): string {
    if s == [] then []
    else if |s| > 1 && s[0] == '\r' && s[1] == '\n' then "\n" + ReplaceCrLf(s[2..])
    else [s[0]] + ReplaceCrLf(s[1..])
  }

  function ReplaceCr(s: string): string {
    if s == [] then [] else [if s[0] == '\r' then '\n' else s[0]] + ReplaceCr(s[1..])
  }

  /** The two replacements of `feed`, one after the other. */
  lemma {:induction false} ReplacementsNormalize(s: string)
    ensures ReplaceCr(ReplaceCrLf(s)) == Norm(s)
  {
    if s == [] {
    } else if |s| > 1 && s[0] == '\r' && s[1] == '\n' {
      ReplacementsNormalize(s[2..]);
      assert ReplaceCrLf(s)[1..] == ReplaceCrLf(s[2..]);
    } else {
      ReplacementsNormalize(s[1..]);
      assert ReplaceCrLf(s)[1..] == ReplaceCrLf(s[1..]);
    }
  }

  /** A CRLF pair counts as one. */
  function FirstUnit(s: string): (n: nat)
    requires s != []
    ensures 1 <= n <= |s|
  {
    if |s| > 1 && s[0] == '\r' && s[1] == '\n' then 2 else 1
  }

  lemma NormStep(s: string)
    requires s != []
    ensures Norm(s) == [if s[0] == '\r' then '\n' else s[0]] + Norm(s[FirstUnit(s)..])
  {
  }

  /** Normalizing piecewise, unless the cut separates a CR from its LF. */
  lemma {:induction false} NormConcat(a: string, b: string)
    requires CleanCut(a, b)
    ensures Norm(a + b) == Norm(a) + Norm(b)
  {
    if a == [] {
      assert a + b == b;
      assert Norm(a) == [];
    } else {
      hide Norm;
      var n := FirstUnit(a);
      FirstUnitStays(a, b);
      CutLater(a, b, n);
      NormConcat(a[n..], b);
      NormStep(a);
      NormStep(a + b);
      Associative([if a[0] == '\r' then '\n' else a[0]], Norm(a[n..]), Norm(b));
    }
  }

  lemma FirstUnitStays(a: string, b: string)
    requires a != [] && CleanCut(a, b)
    ensures FirstUnit(a + b) == FirstUnit(a) && (a + b)[0] == a[0]
  {
  }

  lemma CutLater(a: string, b: string, n: nat)
    requires n <= |a| && CleanCut(a, b)
    ensures (a + b)[n..] == a[n..] + b && CleanCut(a[n..], b)
  {
  }

  lemma Associative<T>(a: seq<T>, b: seq<T>, c: seq<T>)
    ensures a + (b + c) == (a + b) + c
  {
  }

  /** No CR is left, and a text without one stays as it is. */
  lemma {:induction false} NormMeans(s: string)
    ensures '\r' !in Norm(s) && ('\r' !in s ==> Norm(s) == s)
  {
    if s == [] {
    } else {
      NormStep(s);
      NormMeans(s[FirstUnit(s)..]);
      hide Norm;
      if '\r' !in s { assert s == [s[0]] + s[1..]; }
    }
  }

  /** Each of the three line ends is one line end. */
  lemma ThreeLineEnds()
    ensures Norm("a\r\nb\rc\nd") == "a\nb\nc\nd"
  {
    assert Norm("d") == "d" && Norm("\nd") == "\nd" && Norm("c\nd") == "c\nd";
    assert "\rc\nd"[1..] == "c\nd" && "b\rc\nd"[1..] == "\rc\nd" && "\r\nb\rc\nd"[2..] == "b\rc\nd";
    assert "a\r\nb\rc\nd"[1..] == "\r\nb\rc\nd" && "c\nd"[1..] == "\nd" && "\nd"[1..] == "d" && "d"[1..] == "";
  }

  /** The first blank line: index of the first "\n\n", or -1. */
  function Boundary(s: string): (i: int)
    ensures -1 <= i && (i >= 0 ==> i + 1 < |s| && s[i] == '\n' && s[i + 1] == '\n')
    ensures forall j :: 0 <= j < (if i < 0 then |s| - 1 else i) ==> !(s[j] == '\n' && s[j + 1] == '\n')
  {
    if |s| < 2 then -1
    else if s[0] == '\n' && s[1] == '\n' then 0
    else
      var i := Boundary(s[1..]);
      assert forall j :: 0 < j < |s| - 1 ==> s[1..][j - 1] == s[j] && s[1..][j] == s[j + 1];
      if i < 0 then -1 else i + 1
  }

  /** Events of all complete blocks, the unfinished rest, and the last event id. */
  function Drained(s: string, id: Option<string>): (seq<SseEvent>, string, Option<string>)
    decreases |s|
  {
    var i := Boundary(s);
    if i < 0 then ([], s, id)
    else
      var (e, id') := Block(s[..i], id);
      var (more, rest, last) := Drained(s[i + 2..], id');
      (Emit(e) + more, rest, last)
  }

  lemma DrainedStep(s: string, id: Option<string>)
    ensures Boundary(s) < 0 ==> Drained(s, id) == ([], s, id)
    ensures Boundary(s) >= 0 ==>
              var (e, id') := Block(s[..Boundary(s)], id);
              var (more, rest, last) := Drained(s[Boundary(s) + 2..], id');
              Drained(s, id) == (Emit(e) + more, rest, last)
  {
    hide Block, Emit;
  }

  lemma BoundaryStays(s: string, x: string)
    requires Boundary(s) >= 0
    ensures Boundary(s + x) == Boundary(s)
  {
    var i, j := Boundary(s), Boundary(s + x);
    assert (s + x)[i] == s[i] && (s + x)[i + 1] == s[i + 1];
    forall n | 0 <= n < i ensures !((s + x)[n] == '\n' && (s + x)[n + 1] == '\n') {
      assert (s + x)[n] == s[n] && (s + x)[n + 1] == s[n + 1];
    }
  }

  /** Draining is incremental: what is drained early does not have to be seen again. */
  lemma {:induction false} DrainedConcat(s: string, x: string, id: Option<string>)
    ensures var (e1, rest, id1) := Drained(s, id);
            var (e2, rest2, id2) := Drained(rest + x, id1);
            Drained(s + x, id) == (e1 + e2, rest2, id2)
    decreases |s|
  {
    hide Block, Emit, Drained;
    var i := Boundary(s);
    DrainedStep(s, id);
    if i >= 0 {
      BoundaryStays(s, x);
      DrainedStep(s + x, id);
      assert (s + x)[..i] == s[..i];
      assert (s + x)[i + 2..] == s[i + 2..] + x;
      var (e, id') := Block(s[..i], id);
      DrainedConcat(s[i + 2..], x, id');
      var (more, rest, last) := Drained(s[i + 2..], id');
      assert Emit(e) + (more + Drained(rest + x, last).0) == Emit(e) + more + Drained(rest + x, last).0;
    } else {
      assert [] + Drained(s + x, id).0 == Drained(s + x, id).0;
    }
  }

  /** All events of a whole text. */
  function ParseText(text: string): seq<SseEvent> {
    var (events, rest, id) := Drained(Norm(text), None);
    if rest == [] then events else events + Emit(Block(rest, id).0)
  }

  // ----- the class

  predicate EndsInCr(s: string) {
    s != [] && s[|s| - 1] == '\r'
  }

  function WithoutCr(s: string): string {
    if EndsInCr(s) then s[..|s| - 1] else s
  }

  /** A cut that does not separate a CR from its LF. */
  predicate CleanCut(a: string, b: string) {
    EndsInCr(a) && b != [] ==> b[0] != '\n'
  }

  /** What `feed` works on, given the text `fed` before and the new chunk. */
  function Input(fed: string, chunk: string): string {
    (if EndsInCr(fed) then "\r" else "") + chunk
  }

  lemma InputContinues(fed: string, chunk: string)
    ensures var input := Input(fed, chunk);
            && EndsInCr(fed + chunk) == EndsInCr(input)
            && WithoutCr(fed + chunk) == WithoutCr(fed) + WithoutCr(input)
            && CleanCut(WithoutCr(fed), WithoutCr(input))
  {
    assert fed + chunk == WithoutCr(fed) + Input(fed, chunk);
  }

  lemma LoneCr()
    ensures Norm("\r") == "\n" && Norm("") == ""
  {
  }

  /** Draining the old buffer extended by the new input drains the text extended by it. */
  lemma FeedDrains(before: string, input: string)
    requires CleanCut(before, input)
    ensures var (e1, rest, id1) := Drained(Norm(before), None);
            var (e2, rest2, id2) := Drained(rest + Norm(input), id1);
            Drained(Norm(before + input), None) == (e1 + e2, rest2, id2)
    ensures ReplaceCr(ReplaceCrLf(input)) == Norm(input)
  {
    hide Drained, Norm, ReplaceCr, ReplaceCrLf;
    ReplacementsNormalize(input);
    NormConcat(before, input);
    DrainedConcat(Norm(before), Norm(input), None);
  }

  class Parser {
    var buffer: string
    var pendingCarriageReturn: bool
    var lastEventId: Option<string>
    ghost var fed: string

    /** The fields are a function of the text fed so far, however it was cut. */
    ghost predicate Valid()
      reads this
    {
      && pendingCarriageReturn == EndsInCr(fed)
      && Drained(Norm(WithoutCr(fed)), None).1 == buffer
      && Drained(Norm(WithoutCr(fed)), None).2 == lastEventId
    }

    constructor ()
      ensures Valid() && fed == ""
    {
      buffer, pendingCarriageReturn, lastEventId, fed := "", false, None, "";
    }

    method ParseBlock(block: string) returns (event: Option<SseEvent>)
      modifies `lastEventId
      ensures (event, lastEventId) == Block(block, old(lastEventId))
    {
      var data: seq<string> := [];
      var name, retry := None, None;
      var lines := Split(block, '\n');
      for n := 0 to |lines|
        invariant Fields(data, name, lastEventId, retry)
               == ParseLines(Fields([], None, old(lastEventId), None), lines[..n])
      {
        var line := lines[n];
        assert lines[..n + 1][..n] == lines[..n];
        if line == [] || line[0] == ':' { continue; }
        var field, value := FieldName(line), FieldValue(line);
        if field == "data" {
          data := data + [value];
        } else if field == "event" {
          name := Some(value);
        } else if field == "id" && '\0' !in value {
          lastEventId := Some(value);
        } else if field == "retry" && AllDigits(value) {
          retry := Some(ToNat(value));
        }
      }
      assert lines[..|lines|] == lines;
      if data == [] && retry.None? { return None; }
      return Some(SseEvent(Join(data), name, lastEventId, retry));
    }

    method Drain(flush: bool) returns (events: seq<SseEvent>)
      modifies `buffer, `lastEventId
      ensures var (e, rest, id) := Drained(old(buffer), old(lastEventId));
              if flush && rest != []
              then events == e + Emit(Block(rest, id).0) && buffer == "" && lastEventId == Block(rest, id).1
              else events == e && buffer == rest && lastEventId == id
    {
      hide Block, Drained, Boundary, Emit;
      events := [];
      var boundary := Boundary(buffer);
      ghost var (all, end, last) := Drained(buffer, lastEventId);
      while boundary >= 0
        invariant boundary == Boundary(buffer)
        invariant all == events + Drained(buffer, lastEventId).0
        invariant end == Drained(buffer, lastEventId).1 && last == Drained(buffer, lastEventId).2
        decreases |buffer|
      {
        DrainedStep(buffer, lastEventId);
        var block := buffer[..boundary];
        buffer := buffer[boundary + 2..];
        var event := ParseBlock(block);
        Associative(events, Emit(event), Drained(buffer, lastEventId).0);
        events := events + Emit(event);
        boundary := Boundary(buffer);
      }
      DrainedStep(buffer, lastEventId);
      if flush && |buffer| > 0 {
        var event := ParseBlock(buffer);
        buffer := "";
        events := events + Emit(event);
      }
    }

    method Feed(chunk: string) returns (events: seq<SseEvent>)
      requires Valid()
      modifies this
      ensures Valid() && fed == old(fed) + chunk
      ensures Drained(Norm(WithoutCr(fed)), None).0 == Drained(Norm(WithoutCr(old(fed))), None).0 + events
    {
      hide Drained, Norm, ReplaceCr, ReplaceCrLf, Block, Emit, EndsInCr, CleanCut;
      ghost var before := WithoutCr(fed);
      InputContinues(fed, chunk);
      var input := (if pendingCarriageReturn then "\r" else "") + chunk;
      assert input == Input(fed, chunk);
      pendingCarriageReturn := EndsInCr(input);
      input := WithoutCr(input);
      fed := fed + chunk;
      FeedDrains(before, input);
      buffer := buffer + ReplaceCr(ReplaceCrLf(input));
      events := Drain(false);
    }

    method Finish() returns (events: seq<SseEvent>)
      requires Valid()
      modifies this
      ensures Drained(Norm(WithoutCr(old(fed))), None).0 + events == ParseText(old(fed))
    {
      hide Drained, Norm, Block, Emit;
      if pendingCarriageReturn {
        assert WithoutCr(fed) + "\r" == fed;
        FeedDrains(WithoutCr(fed), "\r");
        assert Norm("\r") == "\n" by { LoneCr(); }
        buffer := buffer + "\n";
        pendingCarriageReturn := false;
      } else {
        FeedDrains(fed, "");
        assert fed + "" == fed && buffer + "" == buffer;
        assert Norm("") == "" by { LoneCr(); }
      }
      events := Drain(true);
    }
  }

  function Flatten(chunks: seq<string>): string {
    if chunks == [] then "" else Flatten(chunks[..|chunks| - 1]) + chunks[|chunks| - 1]
  }

  /** `readSseStream`: the events depend on the text alone, not on how it was cut into chunks. */
  method ReadSseStream(chunks: seq<string>) returns (events: seq<SseEvent>)
    ensures events == ParseText(Flatten(chunks))
  {
    var parser := new Parser();
    events := [];
    for n := 0 to |chunks|
      invariant parser.Valid() && parser.fed == Flatten(chunks[..n])
      invariant events == Drained(Norm(WithoutCr(parser.fed)), None).0
    {
      assert chunks[..n + 1][..n] == chunks[..n];
      var more := parser.Feed(chunks[n]);
      events := events + more;
    }
    assert chunks[..|chunks|] == chunks;
    var last := parser.Finish();
    events := events + last;
  }
}
