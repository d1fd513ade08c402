/** `format_buffered_sse`, and the round trip through the client's parser. */
module SsePrinter {
  import opened RunTypes
  import opened SseParser

  // ----- the printer

  /** The line boundaries of Python's `str.splitlines`. */
  predicate LineBreak(c: char) {
    c in {'\n', '\r', '\U{0B}', '\U{0C}', '\U{1C}', '\U{1D}', '\U{1E}', '\U{85}', '\U{2028}', '\U{2029}'}
  }

  function FirstBreak(s: string): (i: nat)
    ensures i <= |s| && (i < |s| ==> LineBreak(s[i])) && forall j :: 0 <= j < i ==> !LineBreak(s[j])
  {
    if s == [] || LineBreak(s[0]) then 0 else FirstBreak(s[1..]) + 1
  }

  function SplitLines(s: string): seq<string>
    decreases |s|
  {
    if s == [] then []
    else
      var i := FirstBreak(s);
      if i == |s| then [s]
      else
        var width := if s[i] == '\r' && i + 1 < |s| && s[i + 1] == '\n' then 2 else 1;
        [s[..i]] + SplitLines(s[i + width..])
  }

  function StripNewlines(s: string): string {
    if s != [] && s[|s| - 1] == '\n' then StripNewlines(s[..|s| - 1]) else s
  }

  function Digits(n: nat): (s: string)
    ensures AllDigits(s)
  {
    var last := ['0' + (n % 10) as char];
    if n < 10 then last else Digits(n / 10) + last
  }

  predicate DataLine(line: string)
    ensures DataLine(line) ==> |line| >= 6
  {
    "data: " <= line && line != "data: [DONE]"
  }

  /** `json.loads`, and for an object `json.dumps` with the event id added; `None` when the text
      is not a JSON object. */
  type Inject = (nat, string) -> Option<string>

  /** The first data line gets the event id, if it holds a JSON object. */
  function Rewritten(lines: seq<string>, id: nat, inject: Inject): seq<string> {
    if lines == [] then []
    else if !DataLine(lines[0]) then [lines[0]] + Rewritten(lines[1..], id, inject)
    else
      var text := inject(id, lines[0][6..]);
      (if text.Some? then ["data: " + text.value] else [lines[0]]) + lines[1..]
  }

  function Frame(id: nat, payload: string, inject: Inject): string {
    "id: " + Digits(id) + "\n" + StripNewlines(Join(Rewritten(SplitLines(payload), id, inject))) + "\n\n"
  }

  lemma RewrittenFrom(lines: seq<string>, n: nat, id: nat, inject: Inject)
    requires n < |lines|
    ensures var text := if DataLine(lines[n]) then inject(id, lines[n][6..]) else None;
            && (!DataLine(lines[n]) ==>
                  lines[..n] + Rewritten(lines[n..], id, inject)
                  == lines[..n + 1] + Rewritten(lines[n + 1..], id, inject))
            && (DataLine(lines[n]) ==>
                  lines[..n] + Rewritten(lines[n..], id, inject)
                  == if text.Some? then lines[n := "data: " + text.value] else lines)
  {
    hide DataLine;
    assert lines[n..][1..] == lines[n + 1..];
    assert lines[..n + 1] == lines[..n] + [lines[n]];
  }

  /** The loop of `format_buffered_sse`: it rewrites one line in place and stops. */
  method AddEventId(original: seq<string>, id: nat, inject: Inject) returns (lines: seq<string>)
    ensures lines == Rewritten(original, id, inject)
  {
    hide Rewritten, DataLine;
    lines := original;
    assert original[..0] + Rewritten(original[0..], id, inject) == Rewritten(original, id, inject);
    for index := 0 to |original|
      invariant lines == original
      invariant Rewritten(original, id, inject) == original[..index] + Rewritten(original[index..], id, inject)
    {
      RewrittenFrom(original, index, id, inject);
      var line := original[index];
      if !DataLine(line) { continue; }
      var text := inject(id, line[6..]);
      if text.Some? { lines := lines[index := "data: " + text.value]; }
      return;
    }
    assert Rewritten([], id, inject) == [] by { RewrittenNone(id, inject); }
    assert original[|original|..] == [] && original[..|original|] + [] == original;
  }

  lemma RewrittenNone(id: nat, inject: Inject)
    ensures Rewritten([], id, inject) == []
  {
  }

  method FormatBufferedSse(id: nat, payload: string, inject: Inject) returns (frame: string)
    ensures frame == Frame(id, payload, inject)
  {
    var lines := AddEventId(SplitLines(payload), id, inject);
    var body := StripNewlines(Join(lines));
    return "id: " + Digits(id) + "\n" + body + "\n\n";
  }

  // ----- what a single-line data event prints

  predicate OneLine(s: string) {
    forall i :: 0 <= i < |s| ==> !LineBreak(s[i])
  }

  predicate NoNewline(s: string) {
    '\n' !in s && '\r' !in s
  }

  /** The printed data of an event whose payload is `data: text`. */
  function Printed(id: nat, text: string, inject: Inject): string {
    if text == "[DONE]" then text
    else var injected := inject(id, text); if injected.Some? then injected.value else text
  }

  lemma PayloadLines(text: string)
    requires OneLine(text)
    ensures SplitLines("data: " + text + "\n\n") == ["data: " + text, ""]
  {
    hide SplitLines;
    var line := "data: " + text;
    assert OneLine(line) by {
      forall i | 0 <= i < |line| ensures !LineBreak(line[i]) {
        if i >= 6 { assert line[i] == text[i - 6]; }
      }
    }
    assert line + "\n\n" == line + "\n" + ("" + "\n" + "");
    SplitLinesFirst(line, "\n", "" + "\n" + "");
    SplitLinesFirst("", "\n", "");
    SplitLinesNone();
  }

  lemma DataFrame(id: nat, text: string, inject: Inject)
    requires OneLine(text) && NoNewline(Printed(id, text, inject))
    ensures Frame(id, "data: " + text + "\n\n", inject)
            == "id: " + Digits(id) + "\n" + ("data: " + Printed(id, text, inject)) + "\n\n"
  {
    PayloadLines(text);
    var line, out := "data: " + text, "data: " + Printed(id, text, inject);
    assert line[6..] == text;
    assert line == "data: [DONE]" <==> text == "[DONE]" by {
      if text == "[DONE]" { assert line == "data: [DONE]"; }
      if line == "data: [DONE]" { assert line[6..] == "[DONE]"; }
    }
    assert [line, ""][1..] == [""];
    assert Rewritten([line, ""], id, inject) == [out, ""] by {
      if text == "[DONE]" { assert Rewritten([""], id, inject) == [""] + Rewritten([""][1..], id, inject); }
    }
    assert Join([out, ""]) == out + "\n" by { assert [out, ""][1..] == [""]; }
    assert (out + "\n")[..|out|] == out;
    assert out[|out| - 1] != '\n' by {
      if Printed(id, text, inject) != [] { assert out[|out| - 1] in Printed(id, text, inject); }
    }
    assert StripNewlines(out + "\n") == out;
  }

  // ----- how the parser reads it back

  lemma TwoLines(a: string, b: string)
    requires '\n' !in a && '\n' !in b
    ensures Split(a + "\n" + b, '\n') == [a, b]
  {
    IndexOfAt(a, '\n', b);
    IndexOfAt(b, '\n', "");
    assert (a + "\n" + b)[..|a|] == a && (a + "\n" + b)[|a| + 1..] == b;
  }

  lemma FieldOf(name: string, value: string)
    requires ':' !in name
    ensures FieldName(name + ": " + value) == name && FieldValue(name + ": " + value) == value
  {
    var line := name + ": " + value;
    assert line == name + [':'] + (" " + value);
    IndexOfAt(name, ':', " " + value);
    assert line[..|name|] == name && line[|name| + 1..] == " " + value;
    assert (" " + value)[1..] == value;
  }

  lemma DigitsAreClean(id: nat)
    ensures '\n' !in Digits(id) && '\0' !in Digits(id) && '\r' !in Digits(id)
  {
    assert AllDigits(Digits(id));
  }

  lemma JoinOne(text: string)
    ensures Join([text]) == text
  {
  }

  lemma DataBlock(id: nat, text: string, prior: Option<string>)
    requires NoNewline(text)
    ensures Block("id: " + Digits(id) + "\n" + ("data: " + text), prior)
            == (Some(SseEvent(text, None, Some(Digits(id)), None)), Some(Digits(id)))
  {
    hide Split, FieldName, FieldValue, Digits, IndexOf, Join;
    var a, b := "id: " + Digits(id), "data: " + text;
    DigitsAreClean(id);
    TwoLines(a, b);
    assert a == "id" + ": " + Digits(id) && b == "data" + ": " + text;
    FieldOf("id", Digits(id));
    FieldOf("data", text);
    var f0 := Fields([], None, prior, None);
    var f1 := f0.(id := Some(Digits(id)));
    assert a[0] == 'i' && b[0] == 'd';
    assert "id" != "data" && "id" != "event";
    assert ParseLine(f0, a) == f1;
    assert ParseLine(f1, b) == f1.(data := [text]);
    assert [a, b][..1] == [a] && [a][..0] == [];
    assert ParseLines(f0, [a]) == ParseLine(ParseLines(f0, []), a);
    assert ParseLines(f0, [a, b]) == ParseLine(ParseLines(f0, [a]), b);
    assert Join([text]) == text by { JoinOne(text); }
  }

  lemma HeartbeatBlock(prior: Option<string>)
    ensures Block(": heartbeat", prior) == (None, prior)
  {
    var s := ": heartbeat";
    assert '\n' !in s;
    IndexOfAt(s, '\n', "");
    assert Split(s, '\n') == [s];
    assert [s][..0] == [];
    var f0 := Fields([], None, prior, None);
    assert ParseLines(f0, [s]) == ParseLine(ParseLines(f0, []), s);
  }

  /** A block without blank lines ends at the first blank line after it. */
  lemma BoundaryAfter(body: string, rest: string)
    requires body != [] && body[|body| - 1] != '\n'
    requires forall j :: 0 <= j < |body| - 1 ==> !(body[j] == '\n' && body[j + 1] == '\n')
    ensures Boundary(body + "\n\n" + rest) == |body|
  {
    var s := body + "\n\n" + rest;
    var i := Boundary(s);
    assert s[|body|] == '\n' && s[|body| + 1] == '\n';
    forall j | 0 <= j < |body| ensures !(s[j] == '\n' && s[j + 1] == '\n') {
      if j < |body| - 1 {
        assert s[j] == body[j] && s[j + 1] == body[j + 1];
      } else {
        assert s[j] == body[j];
      }
    }
  }

  // ----- the stream

  datatype Item = Data(id: nat, text: string) | Heartbeat

  function ItemFrame(item: Item, inject: Inject): string {
    match item
    case Data(id, text) => Frame(id, "data: " + text + "\n\n", inject)
    case Heartbeat => ": heartbeat\n\n"
  }

  function Stream(items: seq<Item>, inject: Inject): string {
    if items == [] then "" else ItemFrame(items[0], inject) + Stream(items[1..], inject)
  }

  /** The ids and data that were printed. */
  function Events(items: seq<Item>, inject: Inject): seq<SseEvent> {
    if items == [] then []
    else
      (match items[0]
       case Data(id, text) => [SseEvent(Printed(id, text, inject), None, Some(Digits(id)), None)]
       case Heartbeat => [])
      + Events(items[1..], inject)
  }

  /** Data without a line break, before and after the event id is added. */
  predicate Printable(items: seq<Item>, inject: Inject) {
    forall i :: 0 <= i < |items| && items[i].Data? ==>
      OneLine(items[i].text) && NoNewline(Printed(items[i].id, items[i].text, inject))
  }

  function Body(item: Item, inject: Inject): string {
    match item
    case Data(id, text) => "id: " + Digits(id) + "\n" + ("data: " + Printed(id, text, inject))
    case Heartbeat => ": heartbeat"
  }

  lemma FrameBody(item: Item, inject: Inject)
    requires item.Data? ==> OneLine(item.text) && NoNewline(Printed(item.id, item.text, inject))
    ensures ItemFrame(item, inject) == Body(item, inject) + "\n\n"
    ensures var b := Body(item, inject);
            && b != [] && b[|b| - 1] != '\n' && '\r' !in b
            && (forall j :: 0 <= j < |b| - 1 ==> !(b[j] == '\n' && b[j + 1] == '\n'))
  {
    if item.Data? {
      DataFrame(item.id, item.text, inject);
      DigitsAreClean(item.id);
      BodyShape("id: " + Digits(item.id), Printed(item.id, item.text, inject));
    }
  }

  lemma BodyShape(a: string, text: string)
    requires NoNewline(a) && NoNewline(text)
    ensures var b := a + "\n" + ("data: " + text);
            && b != [] && b[|b| - 1] != '\n' && '\r' !in b
            && (forall j :: 0 <= j < |b| - 1 ==> !(b[j] == '\n' && b[j + 1] == '\n'))
  {
    var d := "data: " + text;
    var b := a + "\n" + d;
    assert forall j :: 0 <= j < |d| ==> d[j] != '\n' && d[j] != '\r' by {
      forall j | 0 <= j < |d| ensures d[j] != '\n' && d[j] != '\r' {
        if j >= 6 { assert d[j] == text[j - 6]; }
      }
    }
    forall j | 0 <= j < |b| ensures b[j] != '\r' && (b[j] == '\n' ==> j == |a|) {
      if j < |a| { assert b[j] == a[j]; } else if j > |a| { assert b[j] == d[j - |a| - 1]; }
    }
  }

  lemma {:induction false} StreamDrains(items: seq<Item>, inject: Inject, prior: Option<string>)
    requires Printable(items, inject)
    ensures Drained(Stream(items, inject), prior).0 == Events(items, inject)
    ensures Drained(Stream(items, inject), prior).1 == ""
    ensures '\r' !in Stream(items, inject)
  {
    hide Frame, Block, Printed, Boundary;
    if items == [] {
      DrainedStep("", prior);
      assert Boundary("") < 0;
    } else {
      var body, rest := Body(items[0], inject), Stream(items[1..], inject);
      var s := Stream(items, inject);
      FrameBody(items[0], inject);
      assert s == body + "\n\n" + rest;
      BoundaryAfter(body, rest);
      assert s[..|body|] == body && s[|body| + 2..] == rest;
      DrainedStep(s, prior);
      var (e, id) := Block(body, prior);
      assert Printable(items[1..], inject);
      StreamDrains(items[1..], inject, id);
      match items[0]
      case Data(n, text) => DataBlock(n, Printed(n, text, inject), prior);
      case Heartbeat => HeartbeatBlock(prior);
    }
  }

  /** The data events, in order. */
  function DataItems(items: seq<Item>): seq<Item> {
    if items == [] then []
    else (if items[0].Data? then [items[0]] else []) + DataItems(items[1..])
  }

  /** The id that is read is the decimal number that was printed. */
  predicate OneReadBack(event: SseEvent, item: Item, inject: Inject) {
    && item.Data? && event.id.Some? && AllDigits(event.id.value) && ToNat(event.id.value) == item.id
    && event.data == Printed(item.id, item.text, inject) && event.event == None && event.retry == None
  }

  /** One event is read for each data event printed, in order. */
  predicate ReadBack(events: seq<SseEvent>, data: seq<Item>, inject: Inject) {
    |events| == |data| && forall i :: 0 <= i < |data| ==> OneReadBack(events[i], data[i], inject)
  }

  lemma {:induction false} EventsReadBack(items: seq<Item>, inject: Inject)
    ensures ReadBack(Events(items, inject), DataItems(items), inject)
  {
    hide OneReadBack, Digits, Printed;
    if items == [] {
    } else {
      var rest, data := Events(items[1..], inject), DataItems(items[1..]);
      EventsReadBack(items[1..], inject);
      if items[0].Data? {
        var first := SseEvent(Printed(items[0].id, items[0].text, inject), None, Some(Digits(items[0].id)), None);
        assert Events(items, inject) == [first] + rest;
        assert DataItems(items) == [items[0]] + data;
        PrintedReadsBack(items[0], inject);
      } else {
        assert Events(items, inject) == rest && DataItems(items) == data;
      }
    }
  }

  lemma PrintedReadsBack(item: Item, inject: Inject)
    requires item.Data?
    ensures OneReadBack(SseEvent(Printed(item.id, item.text, inject), None, Some(Digits(item.id)), None), item, inject)
  {
    hide Digits, ToNat;
    DigitsValue(item.id);
  }

  // ----- numbers

  lemma ToNatMore(s: string, c: char)
    requires AllDigits(s) && '0' <= c <= '9'
    ensures AllDigits(s + [c]) && ToNat(s + [c]) == ToNat(s) * 10 + (c - '0') as nat
  {
    assert (s + [c])[..|s|] == s;
  }

  /** A printed id is read as the number it is, and has no leading zero. */
  lemma {:induction false} DigitsValue(n: nat)
    ensures AllDigits(Digits(n)) && ToNat(Digits(n)) == n
    ensures n > 0 ==> Digits(n)[0] != '0'
  {
    if n < 10 {
      assert Digits(n) == ['0' + n as char];
      assert Digits(n)[..0] == [];
    } else {
      DigitsValue(n / 10);
      ToNatMore(Digits(n / 10), '0' + (n % 10) as char);
    }
  }

  /** Decimal, most significant digit first. */
  lemma DigitsOfTwelve()
    ensures Digits(0) == "0" && Digits(12) == "12" && ToNat("305") == 305
    ensures AllDigits("305") && !AllDigits("") && !AllDigits("3a") && !AllDigits("-3")
  {
    assert "3a"[1] == 'a' && "-3"[0] == '-';
    assert Digits(1) == "1";
    ToNatMore("3", '0');
    ToNatMore("30", '5');
    assert "3"[..0] == "" && "3" + ['0'] == "30" && "30" + ['5'] == "305";
  }

  /** Printing any list of single-line data events with heartbeats interleaved and reading the
      result in any chunks gives back exactly the printed ids and data. */
  lemma RoundTrip(items: seq<Item>, inject: Inject)
    requires Printable(items, inject)
    ensures ParseText(Stream(items, inject)) == Events(items, inject)
    ensures ReadBack(ParseText(Stream(items, inject)), DataItems(items), inject)
  {
    hide Norm, Drained, Block;
    StreamDrains(items, inject, None);
    NormMeans(Stream(items, inject));
    EventsReadBack(items, inject);
  }

  // ----- what the printer does to any payload

  /** Only the first data line can change, and it changes to what the injection makes of its text. */
  lemma {:induction false} RewrittenMeans(lines: seq<string>, id: nat, inject: Inject, i: nat)
    requires i < |lines|
    ensures |Rewritten(lines, id, inject)| == |lines|
    ensures var first := "data: " <= lines[i] && lines[i] != "data: [DONE]"
                         && forall j :: 0 <= j < i ==> !("data: " <= lines[j]) || lines[j] == "data: [DONE]";
            Rewritten(lines, id, inject)[i]
            == if first && inject(id, lines[i][6..]).Some? then "data: " + inject(id, lines[i][6..]).value else lines[i]
    decreases |lines|
  {
    if i == 0 {
      RewrittenLength(lines, id, inject);
    } else {
      RewrittenLength(lines, id, inject);
      RewrittenMeans(lines[1..], id, inject, i - 1);
      assert forall j :: 0 < j < i ==> lines[1..][j - 1] == lines[j];
      if !DataLine(lines[0]) {
        assert Rewritten(lines, id, inject) == [lines[0]] + Rewritten(lines[1..], id, inject);
      }
    }
  }

  lemma {:induction false} RewrittenLength(lines: seq<string>, id: nat, inject: Inject)
    ensures |Rewritten(lines, id, inject)| == |lines|
  {
    if lines == [] {
    } else {
      RewrittenLength(lines[1..], id, inject);
    }
  }

  /** No line contains a line break, and a text without one is one line. */
  lemma {:induction false} SplitLinesMeans(s: string)
    ensures forall i :: 0 <= i < |SplitLines(s)| ==> OneLine(SplitLines(s)[i])
    ensures s != [] && OneLine(s) ==> SplitLines(s) == [s]
    decreases |s|
  {
    if s == [] {
    } else {
      var i := FirstBreak(s);
      if i < |s| {
        var width := if s[i] == '\r' && i + 1 < |s| && s[i + 1] == '\n' then 2 else 1;
        SplitLinesMeans(s[i + width..]);
      }
    }
  }

  lemma SplitLinesFirst(line: string, end: string, rest: string)
    requires OneLine(line) && end in {"\n", "\r", "\r\n"} && (end == "\r" && rest != [] ==> rest[0] != '\n')
    ensures SplitLines(line + end + rest) == [line] + SplitLines(rest)
  {
    var s := line + end + rest;
    assert s[|line|] == end[0] && LineBreak(s[|line|]);
    assert forall i :: 0 <= i < |line| ==> s[i] == line[i];
    assert FirstBreak(s) == |line|;
    assert s[..|line|] == line && s[|line| + |end|..] == rest;
    if end == "\r" && rest != [] { assert s[|line| + 1] == rest[0]; }
    if end == "\r\n" { assert s[|line| + 1] == '\n'; }
  }

  /** CRLF, CR and LF end a line, and the last line end does not begin another one. */
  lemma SplitLinesAtLineEnds(a: string, b: string, c: string)
    requires OneLine(a) && OneLine(b) && OneLine(c) && c != []
    ensures SplitLines(a + "\r\n" + (b + "\r" + (c + "\n" + ""))) == [a, b, c]
  {
    hide SplitLines;
    assert SplitLines("") == [] by { SplitLinesNone(); }
    SplitLinesFirst(c, "\n", "");
    var tail := c + "\n" + "";
    assert tail[0] == c[0];
    SplitLinesFirst(b, "\r", tail);
    SplitLinesFirst(a, "\r\n", b + "\r" + tail);
  }

  lemma SplitLinesNone()
    ensures SplitLines("") == []
  {
  }

  /** Only newlines at the end are dropped, and all of them. */
  lemma {:induction false} StripMeans(s: string)
    ensures var t := StripNewlines(s);
            && t <= s && (forall i :: |t| <= i < |s| ==> s[i] == '\n')
            && (t != [] ==> t[|t| - 1] != '\n')
  {
    if s == [] || s[|s| - 1] != '\n' {
    } else {
      StripMeans(s[..|s| - 1]);
    }
  }

  // ----- reading a whole block back

  lemma SplitFirst(line: string, rest: string)
    requires '\n' !in line
    ensures Split(line + ['\n'] + rest, '\n') == [line] + Split(rest, '\n')
    ensures Split(line, '\n') == [line]
  {
    IndexOfAt(line, '\n', rest);
    var text := line + ['\n'] + rest;
    assert text[..|line|] == line && text[|line| + 1..] == rest;
  }

  lemma {:induction false} SplitJoin(lines: seq<string>)
    requires lines != [] && forall i :: 0 <= i < |lines| ==> '\n' !in lines[i]
    ensures Split(Join(lines), '\n') == lines
  {
    hide Split;
    if |lines| == 1 {
      SplitFirst(lines[0], "");
      assert lines == [lines[0]];
    } else {
      var rest := lines[1..];
      SplitJoin(rest);
      SplitFirst(lines[0], Join(rest));
      assert lines == [lines[0]] + rest;
    }
  }

  function DataLines(data: seq<string>): seq<string> {
    seq(|data|, i requires 0 <= i < |data| => "data: " + data[i])
  }

  function Header(name: string, value: Option<string>): seq<string> {
    if value.Some? then [name + ": " + value.value] else []
  }

  /** A block with all the fields an event can have. */
  function BlockLines(event: Option<string>, id: Option<string>, retry: Option<nat>, data: seq<string>): seq<string> {
    Header("event", event) + Header("id", id)
    + Header("retry", if retry.Some? then Some(Digits(retry.value)) else None) + DataLines(data)
  }

  predicate Printables(event: Option<string>, id: Option<string>, data: seq<string>) {
    && (event.Some? ==> '\n' !in event.value) && (id.Some? ==> '\n' !in id.value && '\0' !in id.value)
    && (forall i :: 0 <= i < |data| ==> '\n' !in data[i])
  }

  lemma {:induction false} ParseConcat(f: Fields, a: seq<string>, b: seq<string>)
    ensures ParseLines(f, a + b) == ParseLines(ParseLines(f, a), b)
  {
    hide ParseLine;
    if b == [] {
      assert a + b == a;
    } else {
      assert (a + b)[..|a + b| - 1] == a + b[..|b| - 1];
      ParseConcat(f, a, b[..|b| - 1]);
    }
  }

  lemma ParseOne(f: Fields, line: string)
    ensures ParseLines(f, [line]) == ParseLine(f, line) && ParseLines(f, []) == f
  {
    assert [line][..0] == [];
    assert ParseLines(f, []) == f;
  }

  lemma ParseField(f: Fields, name: string, value: string)
    requires ':' !in name && name != []
    ensures IsField(name + ": " + value, name) && FieldValue(name + ": " + value) == value
  {
    FieldOf(name, value);
    assert (name + ": " + value)[0] == name[0];
  }

  lemma ParseHeaders(f: Fields, event: Option<string>, id: Option<string>, retry: Option<nat>)
    requires Printables(event, id, [])
    ensures ParseLines(f, Header("event", event)) == (if event.Some? then f.(event := event) else f)
    ensures ParseLines(f, Header("id", id)) == (if id.Some? then f.(id := id) else f)
    ensures ParseLines(f, Header("retry", if retry.Some? then Some(Digits(retry.value)) else None))
            == (if retry.Some? then f.(retry := retry) else f)
  {
    hide ParseLine, Digits, ToNat, FieldName, FieldValue;
    ParseOne(f, "");
    if event.Some? { ParseHeader(f, "event", event.value); }
    if id.Some? { ParseHeader(f, "id", id.value); }
    if retry.Some? {
      DigitsValue(retry.value);
      ParseHeader(f, "retry", Digits(retry.value));
    }
  }

  lemma ParseHeader(f: Fields, name: string, value: string)
    requires name in {"event", "id", "retry"}
    ensures var g := ParseLines(f, [name + ": " + value]);
            && (name == "event" ==> g == f.(event := Some(value)))
            && (name == "id" && '\0' !in value ==> g == f.(id := Some(value)))
            && (name == "retry" && AllDigits(value) ==> g == f.(retry := Some(ToNat(value))))
  {
    hide FieldName, FieldValue, ToNat;
    var line := name + ": " + value;
    ParseOne(f, line);
    ParseField(f, name, value);
    assert "data" != "event" && "data" != "id" && "data" != "retry";
    assert "event" != "id" && "event" != "retry" && "id" != "retry";
  }

  lemma {:induction false} ParseData(f: Fields, data: seq<string>)
    ensures ParseLines(f, DataLines(data)) == f.(data := f.data + data)
  {
    hide FieldName, FieldValue, ToNat;
    if data == [] {
      assert DataLines(data) == [];
      assert f.data + data == f.data;
    } else {
      var front, last := data[..|data| - 1], data[|data| - 1];
      ParseData(f, front);
      assert DataLines(data)[..|data| - 1] == DataLines(front);
      ParseField(f, "data", last);
      assert DataLines(data)[|data| - 1] == "data" + ": " + last;
      assert f.data + data == f.data + front + [last];
    }
  }

  /** A block with any fields comes back as the event it was written from: its data lines joined by
      newlines, its name, its retry time, and its id or else the last one before it. */
  lemma BlockRoundTrip(event: Option<string>, id: Option<string>, retry: Option<nat>, data: seq<string>,
                       prior: Option<string>)
    requires Printables(event, id, data) && (data != [] || retry.Some?)
    ensures var last := if id.Some? then id else prior;
            Block(Join(BlockLines(event, id, retry, data)), prior)
            == (Some(SseEvent(Join(data), event, last, retry)), last)
  {
    hide ParseLines, Split, Join, Digits, DataLines;
    var lines := BlockLines(event, id, retry, data);
    var a, b := Header("event", event), Header("id", id);
    var c := Header("retry", if retry.Some? then Some(Digits(retry.value)) else None);
    BlockLinesClean(event, id, retry, data);
    SplitJoin(lines);
    var f0 := Fields([], None, prior, None);
    ParseConcat(f0, a + b + c, DataLines(data));
    ParseConcat(f0, a + b, c);
    ParseConcat(f0, a, b);
    ParseHeaders(f0, event, id, retry);
    var f1 := ParseLines(f0, a);
    ParseHeaders(f1, event, id, retry);
    var f2 := ParseLines(f1, b);
    ParseHeaders(f2, event, id, retry);
    var f3 := ParseLines(f2, c);
    ParseData(f3, data);
    assert [] + data == data;
  }

  lemma BlockLinesClean(event: Option<string>, id: Option<string>, retry: Option<nat>, data: seq<string>)
    requires Printables(event, id, data) && (data != [] || retry.Some?)
    ensures var lines := BlockLines(event, id, retry, data);
            lines != [] && forall i :: 0 <= i < |lines| ==> '\n' !in lines[i]
  {
    hide Digits;
    if retry.Some? { DigitsAreClean(retry.value); }
    assert forall i :: 0 <= i < |data| ==> '\n' !in DataLines(data)[i];
  }

  /** A last block without its blank line is read like any other. */
  lemma UnterminatedIsFlushed(text: string)
    requires NoNewline(text)
    ensures ParseText("data: " + text) == [SseEvent(text, None, None, None)]
  {
    hide Norm, Drained, Block;
    var s := "data: " + text;
    NormMeans(s);
    assert Boundary(s) < 0;
    DrainedStep(s, None);
    BlockRoundTrip(None, None, None, [text], None);
    assert BlockLines(None, None, None, [text]) == [s];
    JoinOne(s);
    JoinOne(text);
  }
}
