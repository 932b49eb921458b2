/** The event-stream frames that `writeSSEEvent` and `sseEvents` print
    (modules/runtime/sse.go), and the standard client that reads them: WHATWG HTML
    section 9.2.6, "Interpreting an event stream". */
module SseFrames {
  import opened Wrappers
  import opened Text

  // ----- printing -----

  datatype Event = Event(kind: string, id: int, data: string)

  /** What a connection writes: events, and keepalive comments between them. */
  datatype Item = Frame(event: Event) | Keepalive

  function Field(name: string, value: string): string {
    name + [':', ' '] + value
  }

  function FrameLines(e: Event): seq<string> {
    [Field("event", e.kind), Field("id", Decimal(e.id)), Field("data", e.data), ""]
  }

  function ItemLines(item: Item): seq<string> {
    match item
    case Frame(e) => FrameLines(e)
    case Keepalive => [": keepalive", ""]
  }

  const CLOSE_LINES := [Field("event", "close"), Field("data", "ttl-expired"), ""]

  /** Every line ends with one line feed. */
  function Unlines(lines: seq<string>): string {
    if lines == [] then "" else lines[0] + ['\n'] + Unlines(lines[1..])
  }

  function StreamLines(items: seq<Item>): seq<string> {
    if items == [] then [] else ItemLines(items[0]) + StreamLines(items[1..])
  }

  function StreamText(items: seq<Item>): string {
    Unlines(StreamLines(items))
  }

  function Events(items: seq<Item>): seq<Event> {
    if items == [] then []
    else (if items[0].Frame? then [items[0].event] else []) + Events(items[1..])
  }

  /** No carriage return and no line feed. */
  predicate OneLine(s: string) {
    '\r' !in s && '\n' !in s
  }

  predicate Printable(e: Event) {
    e.kind != "" && OneLine(e.kind) && OneLine(e.data)
  }

  // ----- the standard client -----

  datatype Message = Message(kind: string, data: string, lastId: string)

  /** The event type buffer, data buffer and last event ID buffer, the last event ID
      string that a reconnect sends, and the events dispatched so far. */
  datatype Client = Client(kind: string, data: string, idBuffer: string, lastId: string, got: seq<Message>)

  /** Position of the first line break, or the length. */
  function BreakAt(s: string): (i: nat)
    ensures i <= |s|
    ensures OneLine(s[..i])
    ensures i < |s| ==> s[i] == '\r' || s[i] == '\n'
  {
    if s == "" || s[0] == '\r' || s[0] == '\n' then 0
    else
      var r := BreakAt(s[1..]);
      assert s[..r + 1] == [s[0]] + s[1..][..r];
      r + 1
  }

  /** Where the next line starts after the break at `i`; CR LF is one break. */
  function AfterBreak(s: string, i: nat): (j: nat)
    requires i < |s|
    ensures i < j <= |s|
  {
    if s[i] == '\r' && i + 1 < |s| && s[i + 1] == '\n' then i + 2 else i + 1
  }

  /** The complete lines; an unterminated rest is discarded at the end of the stream. */
  function Lines(s: string): seq<string>
    decreases |s|
  {
    var i := BreakAt(s);
    if i == |s| then [] else [s[..i]] + Lines(s[AfterBreak(s, i)..])
  }

  function FieldName(line: string): string {
    var i := IndexOf(line, ':');
    if i < 0 then line else line[..i]
  }

  /** The text after the first colon, without one leading space. */
  function FieldValue(line: string): string {
    var i := IndexOf(line, ':');
    if i < 0 then ""
    else if i + 1 < |line| && line[i + 1] == ' ' then line[i + 2..]
    else line[i + 1..]
  }

  /** The empty line: dispatch the event. */
  function Dispatch(c: Client): Client {
    var c1 := c.(lastId := c.idBuffer, kind := "", data := "");
    if c.data == "" then c1
    else
      var data := if c.data[|c.data| - 1] == '\n' then c.data[..|c.data| - 1] else c.data;
      var kind := if c.kind == "" then "message" else c.kind;
      c1.(got := c.got + [Message(kind, data, c.idBuffer)])
  }

  /** One line; `retry` and unknown fields change none of the modelled buffers. */
  function Line(c: Client, line: string): Client {
    if line == "" then Dispatch(c)
    else if line[0] == ':' then c
    else
      var name, value := FieldName(line), FieldValue(line);
      if name == "event" then c.(kind := value)
      else if name == "data" then c.(data := c.data + value + "\n")
      else if name == "id" && '\0' !in value then c.(idBuffer := value)
      else c
  }

  function Feed(c: Client, lines: seq<string>): Client
    decreases |lines|
  {
    if lines == [] then c else Feed(Line(c, lines[0]), lines[1..])
  }

  /** A client on a fresh connection that resumes after `lastId`. */
  function Connected(lastId: string): Client {
    Client("", "", lastId, lastId, [])
  }

  function Read(lastId: string, stream: string): Client {
    Feed(Connected(lastId), Lines(stream))
  }

  /** The bytes on the wire. */
  lemma FrameText(e: Event)
    ensures Unlines(ItemLines(Frame(e))) ==
            "event: " + e.kind + "\nid: " + Decimal(e.id) + "\ndata: " + e.data + "\n\n"
  {
    hide Decimal, Unlines;
    var event, id, data := "event: " + e.kind, "id: " + Decimal(e.id), "data: " + e.data;
    assert Field("event", e.kind) == event && Field("id", Decimal(e.id)) == id && Field("data", e.data) == data;
    UnlinesOfFour(event, id, data, "");
    assert event + "\n" + id + "\n" + data + "\n" + "" + "\n" ==
           "event: " + e.kind + "\nid: " + Decimal(e.id) + "\ndata: " + e.data + "\n\n";
  }

  lemma FixedText()
    ensures Unlines(ItemLines(Keepalive)) == ": keepalive\n\n"
    ensures Unlines(CLOSE_LINES) == "event: close\ndata: ttl-expired\n\n"
  {
    hide Unlines;
    UnlinesOfTwo(": keepalive", "");
    UnlinesOfThree("event: close", "data: ttl-expired", "");
    assert Field("event", "close") == "event: close" && Field("data", "ttl-expired") == "data: ttl-expired";
  }

  lemma UnlinesOfTwo(a: string, b: string)
    ensures Unlines([a, b]) == a + "\n" + b + "\n"
  {
    assert [a, b][1..] == [b] && [b][1..] == [];
    assert Unlines([b]) == b + "\n" + "";
  }

  lemma UnlinesOfThree(a: string, b: string, c: string)
    ensures Unlines([a, b, c]) == a + "\n" + b + "\n" + c + "\n"
  {
    assert [a, b, c][1..] == [b, c];
    UnlinesOfTwo(b, c);
  }

  lemma UnlinesOfFour(a: string, b: string, c: string, d: string)
    ensures Unlines([a, b, c, d]) == a + "\n" + b + "\n" + c + "\n" + d + "\n"
  {
    assert [a, b, c, d][1..] == [b, c, d];
    UnlinesOfThree(b, c, d);
  }

  // ----- lines -----

  lemma {:induction false} BreakAtIs(s: string, i: nat)
    requires i < |s| && OneLine(s[..i]) && (s[i] == '\r' || s[i] == '\n')
    ensures BreakAt(s) == i
  {
  }

  /** A complete line in front is the first line. */
  lemma {:induction false} LinesCons(line: string, rest: string)
    requires OneLine(line)
    ensures Lines(line + ['\n'] + rest) == [line] + Lines(rest)
  {
    var s := line + ['\n'] + rest;
    assert s[..|line|] == line && s[|line|] == '\n';
    BreakAtIs(s, |line|);
    assert s[|line| + 1..] == rest;
  }

  lemma {:induction false} UnlinesCons(first: string, tail: seq<string>, rest: string)
    requires OneLine(first)
    ensures Lines(Unlines([first] + tail) + rest) == [first] + Lines(Unlines(tail) + rest)
  {
    var more := Unlines(tail) + rest;
    assert ([first] + tail)[1..] == tail;
    assert Unlines([first] + tail) + rest == first + ['\n'] + more;
    LinesCons(first, more);
  }

  /** Printed lines are read back as they were, whatever follows. */
  lemma {:induction false} LinesOfUnlines(lines: seq<string>, rest: string)
    requires forall i | 0 <= i < |lines| :: OneLine(lines[i])
    ensures Lines(Unlines(lines) + rest) == lines + Lines(rest)
  {
    hide Lines;
    if lines == [] {
      assert Unlines(lines) + rest == rest;
    } else {
      var first, tail := lines[0], lines[1..];
      LinesOfUnlines(tail, rest);
      UnlinesCons(first, tail, rest);
      assert [first] + tail == lines;
      assert [first] + (tail + Lines(rest)) == lines + Lines(rest);
    }
  }

  lemma {:induction false} FeedAppend(c: Client, a: seq<string>, b: seq<string>)
    ensures Feed(c, a + b) == Feed(Feed(c, a), b)
    decreases |a|
  {
    if a == [] {
      assert a + b == b;
    } else {
      assert (a + b)[1..] == a[1..] + b;
      FeedAppend(Line(c, a[0]), a[1..], b);
    }
  }

  lemma {:induction false} FieldIsRead(name: string, value: string)
    requires ':' !in name
    ensures FieldName(Field(name, value)) == name
    ensures FieldValue(Field(name, value)) == value
  {
    var line := Field(name, value);
    assert line[..|name|] == name && line[|name|] == ':' && line[|name| + 1] == ' ';
    IndexOfIs(line, ':', |name|);
    assert line[|name| + 2..] == value;
  }

  lemma {:induction false} FieldLine(c: Client, name: string, value: string)
    requires name != "" && ':' !in name
    ensures Line(c, Field(name, value)) ==
            if name == "event" then c.(kind := value)
            else if name == "data" then c.(data := c.data + value + "\n")
            else if name == "id" && '\0' !in value then c.(idBuffer := value)
            else c
  {
    var line := Field(name, value);
    assert line[0] == name[0];
    FieldIsRead(name, value);
  }

  lemma {:induction false} FeedFour(c: Client, l: seq<string>)
    requires |l| == 4
    ensures Feed(c, l) == Line(Line(Line(Line(c, l[0]), l[1]), l[2]), l[3])
  {
    var c1 := Line(c, l[0]);
    var c2 := Line(c1, l[1]);
    var c3 := Line(c2, l[2]);
    assert Feed(c, l) == Feed(c1, l[1..]);
    assert l[1..][1..] == l[2..] && Feed(c1, l[1..]) == Feed(c2, l[2..]);
    assert l[2..][1..] == l[3..] && Feed(c2, l[2..]) == Feed(c3, l[3..]);
    var c4 := Line(c3, l[3]);
    assert l[3..][1..] == [] && Feed(c3, l[3..]) == Feed(c4, []);
  }

  lemma {:induction false} BlankLine(c: Client, data: string)
    requires c.data == data + "\n"
    ensures Line(c, "") ==
            c.(kind := "", data := "", lastId := c.idBuffer,
               got := c.got + [Message(if c.kind == "" then "message" else c.kind, data, c.idBuffer)])
  {
    assert c.data[..|c.data| - 1] == data;
  }

  lemma {:induction false} FeedFrame(c: Client, e: Event)
    requires c.data == ""
    ensures Feed(c, FrameLines(e)) ==
            c.(kind := "", idBuffer := Decimal(e.id), lastId := Decimal(e.id),
               got := c.got + [Message(if e.kind == "" then "message" else e.kind, e.data, Decimal(e.id))])
  {
    hide Feed, Line, Decimal;
    var l := FrameLines(e);
    var id := Decimal(e.id);
    DecimalIsPlain(e.id);
    FeedFour(c, l);
    FieldLine(c, "event", e.kind);
    var c1 := c.(kind := e.kind);
    FieldLine(c1, "id", id);
    var c2 := c1.(idBuffer := id);
    FieldLine(c2, "data", e.data);
    var c3 := c2.(data := e.data + "\n");
    assert "" + e.data + "\n" == e.data + "\n";
    BlankLine(c3, e.data);
  }

  // ----- round trip -----

  predicate PrintableStream(items: seq<Item>) {
    forall i | 0 <= i < |items| && items[i].Frame? :: Printable(items[i].event)
  }

  /** Between two frames: nothing is buffered. */
  predicate Between(c: Client) {
    c.kind == "" && c.data == "" && c.idBuffer == c.lastId
  }

  function Sent(e: Event): Message {
    Message(e.kind, e.data, Decimal(e.id))
  }

  function HearItem(c: Client, item: Item): Client {
    match item
    case Frame(e) => c.(idBuffer := Decimal(e.id), lastId := Decimal(e.id), got := c.got + [Sent(e)])
    case Keepalive => c
  }

  /** The client after it heard the items one after another. */
  function Hear(c: Client, items: seq<Item>): Client
    decreases |items|
  {
    if items == [] then c else Hear(HearItem(c, items[0]), items[1..])
  }

  lemma {:induction false} FeedItem(c: Client, item: Item)
    requires Between(c) && (item.Frame? ==> Printable(item.event))
    ensures Feed(c, ItemLines(item)) == HearItem(c, item)
  {
    match item
    case Frame(e) =>
      FeedFrame(c, e);
    case Keepalive =>
      var l := ItemLines(item);
      assert l[1..][1..] == [] && Feed(Line(c, l[0]), l[1..]) == Feed(Line(c, l[1]), []);
  }

  lemma {:induction false} FeedStream(c: Client, items: seq<Item>)
    requires Between(c) && PrintableStream(items)
    ensures Feed(c, StreamLines(items)) == Hear(c, items)
    decreases |items|
  {
    if items != [] {
      var rest := items[1..];
      assert forall i | 0 <= i < |rest| :: rest[i] == items[i + 1];
      FeedItem(c, items[0]);
      FeedAppend(c, ItemLines(items[0]), StreamLines(rest));
      FeedStream(HearItem(c, items[0]), rest);
    }
  }

  lemma {:induction false} ItemLinesArePlain(item: Item)
    requires item.Frame? ==> Printable(item.event)
    ensures forall i | 0 <= i < |ItemLines(item)| :: OneLine(ItemLines(item)[i])
  {
    if item.Frame? {
      DecimalIsPlain(item.event.id);
    }
  }

  lemma {:induction false} StreamLinesArePlain(items: seq<Item>)
    requires PrintableStream(items)
    ensures forall i | 0 <= i < |StreamLines(items)| :: OneLine(StreamLines(items)[i])
  {
    if items != [] {
      var rest := items[1..];
      assert forall i | 0 <= i < |rest| :: rest[i] == items[i + 1];
      ItemLinesArePlain(items[0]);
      StreamLinesArePlain(rest);
    }
  }

  lemma {:induction false} StreamIsItsLines(items: seq<Item>, rest: string)
    requires PrintableStream(items)
    ensures Lines(StreamText(items) + rest) == StreamLines(items) + Lines(rest)
  {
    StreamLinesArePlain(items);
    LinesOfUnlines(StreamLines(items), rest);
  }

  /** The events behind the messages: the last event ID is read as a number. */
  function Decoded(got: seq<Message>): Option<seq<Event>> {
    if got == [] then Some([])
    else
      match (Atoi(got[0].lastId), Decoded(got[1..]))
      case (Some(n), Some(es)) => Some([Event(got[0].kind, n, got[0].data)] + es)
      case _ => None
  }

  predicate ProperIds(items: seq<Item>) {
    forall i | 0 <= i < |items| && items[i].Frame? :: MIN_INT <= items[i].event.id <= MAX_INT
  }

  function Messages(items: seq<Item>): seq<Message> {
    if items == [] then []
    else (if items[0].Frame? then [Sent(items[0].event)] else []) + Messages(items[1..])
  }

  /** The cursor that a reconnect sends: the id of the last event, if there was one. */
  function CursorAfter(lastId: string, got: seq<Message>): string {
    if got == [] then lastId else got[|got| - 1].lastId
  }

  lemma {:induction false} HearIs(c: Client, items: seq<Item>)
    requires Between(c)
    ensures Between(Hear(c, items))
    ensures Hear(c, items).got == c.got + Messages(items)
    ensures Hear(c, items).lastId == CursorAfter(c.lastId, Messages(items))
    decreases |items|
  {
    if items != [] {
      var rest := items[1..];
      HearIs(HearItem(c, items[0]), rest);
      match items[0]
      case Frame(e) =>
        assert c.got + ([Sent(e)] + Messages(rest)) == (c.got + [Sent(e)]) + Messages(rest);
      case Keepalive =>
        assert [] + Messages(rest) == Messages(rest);
    }
  }

  lemma {:induction false} DecodedMessages(items: seq<Item>)
    requires ProperIds(items)
    ensures Decoded(Messages(items)) == Some(Events(items))
  {
    if items != [] {
      var rest := items[1..];
      assert forall i | 0 <= i < |rest| :: rest[i] == items[i + 1];
      DecodedMessages(rest);
      match items[0]
      case Frame(e) =>
        AtoiOfDecimal(e.id);
        assert ([Sent(e)] + Messages(rest))[1..] == Messages(rest);
      case Keepalive =>
        assert [] + Messages(rest) == Messages(rest);
        assert [] + Events(rest) == Events(rest);
    }
  }

  /** Reading what was printed gives back exactly the printed events, ids included,
      wherever keepalives stand between them, and the cursor is the last id. */
  lemma {:induction false} RoundTrip(lastId: string, items: seq<Item>)
    requires PrintableStream(items) && ProperIds(items)
    ensures Decoded(Read(lastId, StreamText(items)).got) == Some(Events(items))
    ensures Read(lastId, StreamText(items)).lastId == CursorAfter(lastId, Messages(items))
  {
    var c := Connected(lastId);
    StreamIsItsLines(items, "");
    assert StreamText(items) + "" == StreamText(items);
    assert StreamLines(items) + Lines("") == StreamLines(items);
    FeedStream(c, items);
    HearIs(c, items);
    assert [] + Messages(items) == Messages(items);
    DecodedMessages(items);
  }

  /** The frame printed when the connection's time is up: it is one more message and
      the cursor stays at the last event. */
  lemma {:induction false} CloseKeepsCursor(lastId: string, items: seq<Item>)
    requires PrintableStream(items)
    ensures var c := Read(lastId, StreamText(items) + Unlines(CLOSE_LINES));
            && c.got == Messages(items) + [Message("close", "ttl-expired", c.lastId)]
            && c.lastId == CursorAfter(lastId, Messages(items))
  {
    hide Feed;
    var text := Unlines(CLOSE_LINES);
    StreamIsItsLines(items, text);
    CloseLinesArePlain();
    var c := Connected(lastId);
    FeedAppend(c, StreamLines(items), CLOSE_LINES);
    FeedStream(c, items);
    HearIs(c, items);
    assert [] + Messages(items) == Messages(items);
    FeedClose(Hear(c, items));
  }

  lemma {:induction false} CloseLinesArePlain()
    ensures Lines(Unlines(CLOSE_LINES)) == CLOSE_LINES
  {
    var text := Unlines(CLOSE_LINES);
    assert text + "" == text;
    assert forall i | 0 <= i < 3 :: OneLine(CLOSE_LINES[i]);
    LinesOfUnlines(CLOSE_LINES, "");
    assert CLOSE_LINES + Lines("") == CLOSE_LINES;
  }

  lemma {:induction false} FeedClose(c: Client)
    requires Between(c)
    ensures Feed(c, CLOSE_LINES) == c.(got := c.got + [Message("close", "ttl-expired", c.lastId)])
  {
    hide Line;
    var l := CLOSE_LINES;
    var c1 := c.(kind := "close");
    var c2 := c1.(data := "ttl-expired" + "\n");
    FieldLine(c, "event", "close");
    FieldLine(c1, "data", "ttl-expired");
    assert "" + "ttl-expired" + "\n" == c2.data;
    BlankLine(c2, "ttl-expired");
    assert Feed(c, l) == Feed(c1, l[1..]);
    assert l[1..][1..] == l[2..] && Feed(c1, l[1..]) == Feed(c2, l[2..]);
    assert l[2..][1..] == [] && Feed(c2, l[2..]) == Feed(Line(c2, ""), []);
  }

  // ----- a connection that breaks off -----

  lemma {:induction false} LinesStep(s: string)
    requires BreakAt(s) < |s|
    ensures Lines(s) == [s[..BreakAt(s)]] + Lines(s[AfterBreak(s, BreakAt(s))..])
  {
  }

  /** Cutting a stream anywhere leaves a prefix of its complete lines. */
  lemma {:induction false} LinesOfPrefix(s: string, k: nat)
    requires k <= |s|
    ensures Lines(s[..k]) <= Lines(s)
    decreases |s|
  {
    hide Lines;
    var i := BreakAt(s);
    if i < k {
      var t := s[..k];
      assert t[..i] == s[..i] && t[i] == s[i];
      BreakAtIs(t, i);
      LinesStep(s);
      LinesStep(t);
      var j, m := AfterBreak(t, i), AfterBreak(s, i);
      if j == m {
        assert t[j..] == s[j..][..k - j];
        LinesOfPrefix(s[j..], k - j);
      } else {
        assert t[j..] == ""[..0];
        NoBreakNoLine("", 0);
      }
    } else {
      NoBreakNoLine(s, k);
    }
  }

  lemma {:induction false} NoBreakNoLine(s: string, k: nat)
    requires k <= BreakAt(s)
    ensures Lines(s[..k]) == []
  {
    assert s[..BreakAt(s)][..k] == s[..k];
    assert OneLine(s[..k]);
  }

  lemma {:induction false} FeedOnlyAdds(c: Client, lines: seq<string>)
    ensures c.got <= Feed(c, lines).got
    decreases |lines|
  {
    if lines != [] {
      assert c.got <= Line(c, lines[0]).got;
      FeedOnlyAdds(Line(c, lines[0]), lines[1..]);
    }
  }

  /** Without an empty line nothing is dispatched. */
  lemma {:induction false} NoBlankNoDispatch(c: Client, lines: seq<string>)
    requires forall i | 0 <= i < |lines| :: lines[i] != ""
    ensures Feed(c, lines).got == c.got && Feed(c, lines).lastId == c.lastId
    decreases |lines|
  {
    if lines != [] {
      var rest := lines[1..];
      assert forall i | 0 <= i < |rest| :: rest[i] == lines[i + 1];
      NoBlankNoDispatch(Line(c, lines[0]), rest);
    }
  }

  lemma {:induction false} PartOfItem(c: Client, item: Item, k: nat)
    requires k < |ItemLines(item)|
    ensures Feed(c, ItemLines(item)[..k]).got == c.got
    ensures Feed(c, ItemLines(item)[..k]).lastId == c.lastId
  {
    var part := ItemLines(item)[..k];
    forall i | 0 <= i < k ensures part[i] != "" {
      assert part[i] == ItemLines(item)[i];
    }
    NoBlankNoDispatch(c, part);
  }

  lemma {:induction false} PartOfStream(c: Client, items: seq<Item>, k: nat, start: string)
    requires Between(c) && PrintableStream(items) && k <= |StreamLines(items)|
    requires c.lastId == CursorAfter(start, c.got)
    ensures var c' := Feed(c, StreamLines(items)[..k]); c'.lastId == CursorAfter(start, c'.got)
    decreases |items|
  {
    hide Feed, ItemLines;
    var lines := StreamLines(items);
    if items == [] {
      assert lines[..k] == [];
      NoBlankNoDispatch(c, []);
    } else {
      var first, rest := ItemLines(items[0]), items[1..];
      assert forall i | 0 <= i < |rest| :: rest[i] == items[i + 1];
      if k < |first| {
        assert lines[..k] == first[..k];
        PartOfItem(c, items[0], k);
      } else {
        assert lines[..k] == first + StreamLines(rest)[..k - |first|];
        FeedAppend(c, first, StreamLines(rest)[..k - |first|]);
        FeedItem(c, items[0]);
        PartOfStream(HearItem(c, items[0]), rest, k - |first|, start);
      }
    }
  }

  lemma NothingLeft(lines: seq<string>)
    ensures lines + Lines("") == lines
  {
  }

  /** A connection that breaks after any number of characters has delivered a prefix
      of the events, none of them damaged, and its cursor is the id of the last one
      delivered. */
  lemma {:induction false} CutAnywhere(lastId: string, items: seq<Item>, k: nat)
    requires PrintableStream(items) && k <= |StreamText(items)|
    ensures var c := Read(lastId, StreamText(items)[..k]);
            && c.got <= Messages(items)
            && c.lastId == CursorAfter(lastId, c.got)
  {
    hide Feed, ItemLines, StreamLines, Unlines, PrintableStream, Messages, Lines;
    var c, text := Connected(lastId), StreamText(items);
    var all, part := StreamLines(items), Lines(text[..k]);
    LinesOfPrefix(text, k);
    StreamIsItsLines(items, "");
    assert text + "" == text;
    assert all + Lines("") == all by {
      NothingLeft(all);
    }
    assert part == all[..|part|];
    PartOfStream(c, items, |part|, lastId);
    FeedAppend(c, part, all[|part|..]);
    assert part + all[|part|..] == all;
    FeedOnlyAdds(Feed(c, part), all[|part|..]);
    FeedStream(c, items);
    HearIs(c, items);
    assert [] + Messages(items) == Messages(items);
  }

  // ----- which events survive -----

  /** Dispatched types are never empty and have no line break. */
  predicate PlainKinds(c: Client) {
    OneLine(c.kind) && forall i | 0 <= i < |c.got| :: c.got[i].kind != "" && OneLine(c.got[i].kind)
  }

  lemma {:induction false} FieldValueIsPlain(line: string)
    requires OneLine(line)
    ensures OneLine(FieldValue(line))
  {
    var value := FieldValue(line);
    assert forall i | 0 <= i < |value| :: value[i] == line[|line| - |value| + i];
  }

  lemma {:induction false} LineKeepsPlainKinds(c: Client, line: string)
    requires PlainKinds(c) && OneLine(line)
    ensures PlainKinds(Line(c, line))
  {
    hide FieldName, FieldValue;
    FieldValueIsPlain(line);
  }

  lemma {:induction false} ReadKeepsPlainKinds(c: Client, s: string)
    requires PlainKinds(c)
    ensures PlainKinds(Feed(c, Lines(s)))
    decreases |s|
  {
    var i := BreakAt(s);
    if i < |s| {
      LineKeepsPlainKinds(c, s[..i]);
      var rest := s[AfterBreak(s, i)..];
      ReadKeepsPlainKinds(Line(c, s[..i]), rest);
      assert Lines(s)[1..] == Lines(rest);
    }
  }

  /** Characters of data held or dispatched, one more for each dispatched message. */
  function Weight(c: Client): nat {
    |c.data| + MessageWeight(c.got)
  }

  function MessageWeight(got: seq<Message>): nat {
    if got == [] then 0 else MessageWeight(got[..|got| - 1]) + |got[|got| - 1].data| + 1
  }

  predicate DataIsLines(c: Client) {
    c.data == "" || c.data[|c.data| - 1] == '\n'
  }

  lemma {:induction false} LineWeight(c: Client, line: string)
    requires DataIsLines(c)
    ensures DataIsLines(Line(c, line))
    ensures Weight(Line(c, line)) <= Weight(c) + if |line| > 3 then |line| - 3 else 0
  {
    var c' := Line(c, line);
    if line == "" && c.data != "" {
      assert c'.got[..|c'.got| - 1] == c.got;
    } else if line != "" && FieldName(line) == "data" {
      assert |FieldValue(line)| <= if |line| > 4 then |line| - 5 else 0;
    }
  }

  lemma {:induction false} ReadWeight(c: Client, s: string)
    requires DataIsLines(c)
    ensures Weight(Feed(c, Lines(s))) <= Weight(c) + if |s| > 4 then |s| - 4 else 0
    decreases |s|
  {
    var i := BreakAt(s);
    if i < |s| {
      LineWeight(c, s[..i]);
      var rest := s[AfterBreak(s, i)..];
      ReadWeight(Line(c, s[..i]), rest);
      assert Lines(s)[1..] == Lines(rest);
    }
  }

  lemma {:induction false} BrokenDataIsLighter(c: Client, e: Event)
    requires c.data == "" && c.got == [] && OneLine(e.kind) && !OneLine(e.data)
    ensures Weight(Feed(c, Lines(Unlines(FrameLines(e))))) < |e.data| + 1
  {
    hide Feed, Lines, FieldName, FieldValue;
    var l := FrameLines(e);
    var id, data := Decimal(e.id), Field("data", e.data);
    DecimalIsPlain(e.id);
    var tail := Unlines(l[2..]);
    UnlinesOfFrame(l);
    LinesOfUnlines(l[..2], tail);
    assert Unlines(l) == Unlines(l[..2]) + tail;
    FeedAppend(c, l[..2], Lines(tail));
    FeedTwo(c, l[..2]);
    FieldLine(c, "event", e.kind);
    FieldLine(c.(kind := e.kind), "id", id);
    var c2 := c.(kind := e.kind, idBuffer := id);
    assert Feed(c, l[..2]) == c2;
    assert tail == data + ['\n'] + (l[3] + ['\n']);
    FirstDataLine(c2, e.data, tail);
  }

  lemma {:induction false} UnlinesOfFrame(l: seq<string>)
    requires |l| == 4
    ensures Unlines(l) == Unlines(l[..2]) + Unlines(l[2..])
    ensures Unlines(l[2..]) == l[2] + ['\n'] + (l[3] + ['\n'])
  {
    assert l[..2][1..] == [l[1]] && [l[1]][1..] == [];
    assert l[1..][1..] == l[2..] && l[2..][1..] == l[3..] && l[3..][1..] == [];
    assert Unlines(l[3..]) == l[3] + ['\n'] + "" == l[3] + ['\n'];
    assert Unlines([l[1]]) == l[1] + ['\n'] + "" == l[1] + ['\n'];
    assert Unlines(l[..2]) == l[0] + ['\n'] + Unlines([l[1]]);
    assert Unlines(l[1..]) == l[1] + ['\n'] + Unlines(l[2..]);
    assert Unlines(l) == l[0] + ['\n'] + Unlines(l[1..]);
  }

  lemma {:induction false} FeedTwo(c: Client, l: seq<string>)
    requires |l| == 2
    ensures Feed(c, l) == Line(Line(c, l[0]), l[1])
  {
    assert l[1..][1..] == [];
    assert Feed(Line(c, l[0]), l[1..]) == Feed(Line(Line(c, l[0]), l[1]), []);
  }

  lemma {:induction false} FirstDataLine(c: Client, data: string, tail: string)
    requires c.data == "" && c.got == [] && !OneLine(data)
    requires tail == Field("data", data) + ['\n'] + ("" + ['\n'])
    ensures Weight(Feed(c, Lines(tail))) < |data| + 1
  {
    var i := BreakAt(data);
    assert i < |data| by {
      assert data[..|data|] == data;
    }
    var line := Field("data", data[..i]);
    var at := |line|;
    assert at == 6 + i && tail[at] == data[i] && tail[..at] == line;
    assert OneLine(line);
    BreakAtIs(tail, at);
    var rest := tail[AfterBreak(tail, at)..];
    FieldLine(c, "data", data[..i]);
    var c1 := Line(c, line);
    assert Lines(tail)[0] == line && Lines(tail)[1..] == Lines(rest);
    assert c1.data == data[..i] + "\n" && DataIsLines(c1);
    ReadWeight(c1, rest);
  }

  /** A single printed event is read back exactly when its type is not empty and
      neither its type nor its data has a line break; the code leaves that to the
      caller. */
  lemma {:induction false} SurvivesIffPrintable(lastId: string, e: Event)
    requires MIN_INT <= e.id <= MAX_INT
    ensures Decoded(Read(lastId, StreamText([Frame(e)])).got) == Some([e]) <==> Printable(e)
  {
    hide Feed, Lines;
    var items := [Frame(e)];
    assert StreamLines(items) == FrameLines(e) by {
      assert items[1..] == [];
      assert FrameLines(e) + [] == FrameLines(e);
    }
    var c := Connected(lastId);
    var got := Feed(c, Lines(StreamText(items))).got;
    if Printable(e) {
      RoundTrip(lastId, items);
      assert Events(items) == [e] by {
        assert items[1..] == [];
        assert [e] + [] == [e];
      }
    } else {
      ReadKeepsPlainKinds(c, StreamText(items));
      if OneLine(e.kind) && !OneLine(e.data) {
        BrokenDataIsLighter(c, e);
      }
      if Decoded(got) == Some([e]) {
        DecodedOne(got, e);
      }
    }
  }

  lemma {:induction false} DecodedOne(got: seq<Message>, e: Event)
    requires Decoded(got) == Some([e])
    ensures |got| == 1 && got[0].kind == e.kind && MessageWeight(got) == |e.data| + 1
  {
    var rest := got[1..];
    if Decoded(rest).Some? {
      var n := Atoi(got[0].lastId).value;
      var es := [Event(got[0].kind, n, got[0].data)] + Decoded(rest).value;
      assert es == [e] && |es| == 1 + |Decoded(rest).value|;
      assert es[0] == e;
      DecodedLength(rest);
      assert got[..|got| - 1] == [];
    }
  }

  lemma {:induction false} DecodedLength(got: seq<Message>)
    requires Decoded(got).Some?
    ensures |Decoded(got).value| == |got|
  {
    if got != [] {
      DecodedLength(got[1..]);
    }
  }
}
