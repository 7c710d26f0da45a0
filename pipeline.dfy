/** The relay end to end: the history the page posts passes the server's
    filter unchanged, and the page renders exactly what the server's events
    carry, however the event stream is cut into chunks. */
module Pipeline {
  import opened Wrappers
  import opened Strings
  import opened Messages
  import opened Streams
  import Json
  import opened Sse
  import opened Relay
  import opened ChatClient

  // ---------------------------------------------------------------------
  // The request

  /** A message as the body of the request carries it: `{ role, content }`
      with a string role and a string content. */
  function Encode(m: Message): Entry {
    Item(Some(RoleName(m.role)), Some(m.content))
  }

  function Entries(h: seq<Message>): (r: seq<Entry>)
    ensures |r| == |h|
    decreases |h|
  {
    if h == [] then [] else Entries(DropLast(h)) + [Encode(Last(h))]
  }

  /** The server keeps a `user` or `assistant` message as it is. */
  lemma EncodeKept(m: Message)
    requires IsChatRole(m.role)
    ensures KeptSeq(Encode(m)) == [m]
  {
  }

  lemma SafeMessagesSnoc(entries: seq<Entry>, e: Entry)
    ensures SafeMessages(entries + [e]) == SafeMessages(entries) + KeptSeq(e)
  {
    DropLastAppend(entries, [e]);
  }

  /** The server keeps every message of a history made of `user` and
      `assistant` messages, unchanged and in order. */
  lemma {:induction false} HistoryAccepted(h: seq<Message>)
    requires forall k :: 0 <= k < |h| ==> IsChatRole(h[k].role)
    ensures SafeMessages(Entries(h)) == h
    decreases |h|
  {
    if h != [] {
      var m := Last(h);
      assert IsChatRole(m.role) by {
        assert m == h[|h| - 1];
      }
      EncodeKept(m);
      HistoryAccepted(DropLast(h));
      SafeMessagesSnoc(Entries(DropLast(h)), Encode(m));
      assert h == DropLast(h) + [m];
    }
  }

  /** What the page posts on a send is exactly what the server forwards
      after its system instruction. */
  lemma OutgoingForwarded(msgs: seq<Message>, text: string)
    ensures var outgoing := ChatHistory(msgs) + [Message(User, text)];
            SafeMessages(Entries(outgoing)) == outgoing
  {
    var outgoing := ChatHistory(msgs) + [Message(User, text)];
    forall k | 0 <= k < |outgoing| ensures IsChatRole(outgoing[k].role) {
      if k < |ChatHistory(msgs)| {
        assert outgoing[k] == ChatHistory(msgs)[k];
      }
    }
    HistoryAccepted(outgoing);
  }

  // ---------------------------------------------------------------------
  // The response

  /** A marked line `marker + " " + v` starts with the marker, and what
      follows the marker trims to `v` when `v` neither begins nor ends with
      white space. */
  lemma MarkedLine(marker: string, v: string)
    requires |v| > 0 && !IsWhite(v[0]) && !IsWhite(v[|v| - 1])
    ensures StartsWith(marker + " " + v, marker)
    ensures Trim((marker + " " + v)[|marker|..]) == v
  {
    assert (marker + " " + v)[..|marker|] == marker;
    assert (marker + " " + v)[|marker|..] == " " + v;
    TrimAfterWhite(" ", v);
  }

  /** Two lines without line feeds, joined by one, split back into both. */
  lemma TwoLines(a: string, b: string)
    requires '\n' !in a && '\n' !in b
    ensures Split(a + "\n" + b, "\n") == [a, b]
  {
    assert a + "\n" + b == a + ['\n'] + b;
    SplitCons(a, '\n', b);
    FreeChar(b, '\n');
    SplitFree(b, "\n");
  }

  /** The first of two lines, `marker v`, gives the field `v`. */
  lemma FirstField(a: string, b: string, marker: string, v: string, absent: string)
    requires marker != [] && a == marker + " " + v
    requires |v| > 0 && !IsWhite(v[0]) && !IsWhite(v[|v| - 1])
    ensures Field([a, b], marker, absent) == v
  {
    MarkedLine(marker, v);
    assert FirstStarting([a, b], marker) == Some(0);
  }

  /** The second of two lines, `marker v`, gives the field `v` when the
      first does not start with the marker. */
  lemma SecondField(a: string, b: string, marker: string, v: string, absent: string)
    requires marker != [] && !StartsWith(a, marker) && b == marker + " " + v
    requires |v| > 0 && !IsWhite(v[0]) && !IsWhite(v[|v| - 1])
    ensures Field([a, b], marker, absent) == v
  {
    MarkedLine(marker, v);
    assert [a, b][1..] == [b];
    assert FirstStarting([a, b], marker) == Some(1);
  }

  /** An event text whose lines are `a` and `b` has the name and payload
      those two lines give. */
  lemma ParseLines(ev: string, a: string, b: string, name: string, payload: string)
    requires Split(ev, "\n") == [a, b]
    requires Field([a, b], "event:", "") == name && Field([a, b], "data:", "{}") == payload
    ensures ParseFrame(ev) == Frame(name, payload)
  {
  }

  lemma EventLineNotData(name: string)
    ensures !StartsWith("event:" + " " + name, "data:")
  {
    assert ("event:" + " " + name)[0] == 'e';
  }

  /** Two lines, `event: name` and `data: payload`, read as an event. */
  lemma ParseTwoLines(name: string, payload: string)
    requires |name| > 0 && !IsWhite(name[0]) && !IsWhite(name[|name| - 1])
    requires |payload| > 0 && !IsWhite(payload[0]) && !IsWhite(payload[|payload| - 1])
    requires '\n' !in name && '\n' !in payload
    ensures ParseFrame(("event:" + " " + name) + "\n" + ("data:" + " " + payload)) == Frame(name, payload)
  {
    var a, b := "event:" + " " + name, "data:" + " " + payload;
    assert '\n' !in a && '\n' !in b;
    TwoLines(a, b);
    FirstField(a, b, "event:", name, "");
    EventLineNotData(name);
    SecondField(a, b, "data:", payload, "{}");
    ParseLines(a + "\n" + b, a, b, name, payload);
  }

  lemma BlockText(e: Event)
    ensures Block(e) == ("event:" + " " + Name(e)) + "\n" + ("data:" + " " + Payload(e))
  {
  }

  /** The page reads back the name and the payload the server wrote. */
  lemma ParseBlock(e: Event)
    ensures ParseFrame(Block(e)) == Frame(Name(e), Payload(e))
  {
    var name, payload := Name(e), Payload(e);
    assert |name| > 0 && !IsWhite(name[0]) && !IsWhite(name[|name| - 1]) && '\n' !in name;
    assert payload[0] == '{' && payload[|payload| - 1] == '}';
    Json.NoControlNoLineFeed(payload);
    BlockText(e);
    ParseTwoLines(name, payload);
  }

  /** What `JSON.parse` gives for each payload the server writes. */
  function Value(e: Event): DataValue {
    match e
    case Delta(t) => Object(Some(t), None)
    case Done => Object(None, None)
    case Error(m) => Object(None, Some(m))
  }

  /** `parse` reads back the payloads of `es`. */
  predicate Decodes(parse: PayloadParser, es: seq<Event>) {
    forall k :: 0 <= k < |es| ==> parse(Payload(es[k])) == Some(Value(es[k]))
  }

  /** The text the page shows for one event. */
  function Shown(e: Event): string {
    match e
    case Delta(t) => t
    case Done => ""
    case Error(m) => Warning(Or(Some(m), UNKNOWN_ERROR))
  }

  /** The text the page shows for a stream of events. */
  function Rendered(es: seq<Event>): string
    decreases |es|
  {
    if es == [] then "" else Rendered(DropLast(es)) + Shown(Last(es))
  }

  lemma AppendToLast(prefix: seq<Message>, c: string, d: string)
    ensures AppendAssistant(prefix + [Message(Assistant, c)], d) == prefix + [Message(Assistant, c + d)]
  {
    DropLastAppend(prefix, [Message(Assistant, c)]);
  }

  /** An event the server writes appends what it shows. */
  lemma DispatchShown(f: Frame, e: Event, parse: PayloadParser)
    requires f == Frame(Name(e), Payload(e)) && parse(Payload(e)) == Some(Value(e))
    ensures Dispatch(f, parse) == if e.Done? then Ignore else Append(Shown(e))
  {
    match e
    case Delta(t) =>
      assert Or(Some(t), "") == t;
    case Done =>
    case Error(m) =>
  }

  /** An event whose effect is an append extends the assistant message. */
  lemma StepAppend(prefix: seq<Message>, x: string, ev: string, t: string, parse: PayloadParser)
    requires Dispatch(ParseFrame(ev), parse) == Append(t)
    ensures Step(Progress(prefix + [Message(Assistant, x)], None), ev, parse)
         == Progress(prefix + [Message(Assistant, x + t)], None)
  {
    AppendToLast(prefix, x, t);
  }

  /** An event whose effect is ignored changes nothing. */
  lemma StepIgnore(p: Progress, ev: string, parse: PayloadParser)
    requires Dispatch(ParseFrame(ev), parse) == Ignore
    ensures Step(p, ev, parse) == p
  {
  }

  /** A frame whose effect is what the event `e` shows appends that to the
      assistant message and throws nothing. */
  lemma EventStep(prefix: seq<Message>, x: string, ev: string, e: Event, parse: PayloadParser)
    requires Dispatch(ParseFrame(ev), parse) == if e.Done? then Ignore else Append(Shown(e))
    ensures Step(Progress(prefix + [Message(Assistant, x)], None), ev, parse)
         == Progress(prefix + [Message(Assistant, x + Shown(e))], None)
  {
    if e.Done? {
      StepIgnore(Progress(prefix + [Message(Assistant, x)], None), ev, parse);
      assert x + Shown(e) == x;
    } else {
      StepAppend(prefix, x, ev, Shown(e), parse);
    }
  }

  /** Frames that read back, one by one, as the events `es` append what the
      events show, in order. */
  lemma {:induction false} FramesApply(prefix: seq<Message>, c: string, frames: seq<string>, es: seq<Event>, parse: PayloadParser)
    requires |frames| == |es| && Decodes(parse, es)
    requires forall k :: 0 <= k < |es| ==> ParseFrame(frames[k]) == Frame(Name(es[k]), Payload(es[k]))
    ensures ApplyFrames(Progress(prefix + [Message(Assistant, c)], None), frames, parse)
         == Progress(prefix + [Message(Assistant, c + Rendered(es))], None)
    decreases |es|
  {
    if es == [] {
      assert c + Rendered(es) == c;
    } else {
      var init, e := DropLast(es), Last(es);
      var n := |es| - 1;
      assert Decodes(parse, init) by {
        forall k | 0 <= k < |init| ensures parse(Payload(init[k])) == Some(Value(init[k])) {
          assert init[k] == es[k];
        }
      }
      assert e == es[n];
      FramesApply(prefix, c, DropLast(frames), init, parse);
      DispatchShown(ParseFrame(frames[n]), e, parse);
      EventStep(prefix, c + Rendered(init), frames[n], e, parse);
      Assoc(c, Rendered(init), Shown(e));
    }
  }

  /** Each event the server writes, read by the page, appends what it
      shows to the assistant message and throws nothing. */
  lemma ClientApplies(prefix: seq<Message>, c: string, es: seq<Event>, parse: PayloadParser)
    requires Decodes(parse, es)
    ensures ApplyFrames(Progress(prefix + [Message(Assistant, c)], None), Blocks(es), parse)
         == Progress(prefix + [Message(Assistant, c + Rendered(es))], None)
  {
    forall k | 0 <= k < |es| ensures ParseFrame(Blocks(es)[k]) == Frame(Name(es[k]), Payload(es[k])) {
      ParseBlock(es[k]);
    }
    FramesApply(prefix, c, Blocks(es), es, parse);
  }

  /** Whatever chunks the event stream arrives in, the page appends exactly
      the text of the server's events to the placeholder, followed by the
      warning for a failed read. */
  lemma ServerToClient(prefix: seq<Message>, c: string, chunks: seq<string>, failure: Option<string>, es: seq<Event>, parse: PayloadParser)
    requires Concat(chunks) == Text(es) && Decodes(parse, es)
    ensures TurnMessages(prefix + [Message(Assistant, c)], Streamed(chunks, failure), parse)
         == prefix + [Message(Assistant, c + Rendered(es) + (if failure.Some? then Warning(failure.value) else ""))]
  {
    SplitText(es);
    assert Complete(Text(es), "\n\n") == Blocks(es) by {
      DropLastAppend(Blocks(es), [""]);
    }
    ClientApplies(prefix, c, es, parse);
    if failure.Some? {
      AppendToLast(prefix, c + Rendered(es), Warning(failure.value));
    } else {
      assert c + Rendered(es) + "" == c + Rendered(es);
    }
  }

  /** The text of one event: its two lines and the blank line after them. */
  lemma TextOne(e: Event)
    ensures Text([e]) == EventField(e) + "\n" + DataField(e) + "\n\n"
  {
    assert DropLast([e]) == [] && Last([e]) == e;
    assert Writes([e]) == [EventLine(e), DataLine(e)];
    ConcatPair(EventLine(e), DataLine(e));
  }

  /** The payload of the delta event carrying `Hi`. */
  lemma PayloadHi()
    ensures Payload(Delta("Hi")) == "{\"delta\":\"Hi\"}"
  {
    assert "i"[1..] == [] && "Hi"[1..] == "i";
    assert Json.EscapeChar('i') == "i" && Json.EscapeChar('H') == "H";
    assert Json.Escape("i") == "i" + Json.Escape([]);
    assert Json.Escape("Hi") == "H" + Json.Escape("i");
  }

  lemma FieldsHi()
    ensures EventField(Delta("Hi")) == "event: delta"
    ensures DataField(Delta("Hi")) == "data: {\"del" + "ta\":\"Hi\"}"
  {
    PayloadHi();
  }

  lemma ChunksHi(c1: string, c2: string)
    requires c1 == "event: delta\ndata: {\"del" && c2 == "ta\":\"Hi\"}\n\n"
    ensures c1 == "event: delta" + "\n" + "data: {\"del"
    ensures c2 == "ta\":\"Hi\"}" + "\n\n"
  {
  }

  /** Cutting the second line of an event cuts its text in two. */
  lemma Regroup(a: string, b1: string, b2: string)
    ensures a + "\n" + (b1 + b2) + "\n\n" == (a + "\n" + b1) + (b2 + "\n\n")
  {
  }

  /** The text of the delta event carrying `Hi`, cut inside its payload. */
  lemma TextHi(c1: string, c2: string)
    requires c1 == "event: delta\ndata: {\"del" && c2 == "ta\":\"Hi\"}\n\n"
    ensures Text([Delta("Hi")]) == c1 + c2
  {
    TextOne(Delta("Hi"));
    FieldsHi();
    ChunksHi(c1, c2);
    Regroup("event: delta", "data: {\"del", "ta\":\"Hi\"}");
  }

  lemma RenderedHi()
    ensures "" + Rendered([Delta("Hi")]) + "" == "Hi"
  {
    var es := [Delta("Hi")];
    assert DropLast(es) == [] && Last(es) == Delta("Hi");
  }

  lemma DecodesHi(parse: PayloadParser)
    requires parse("{\"delta\":\"Hi\"}") == Some(Object(Some("Hi"), None))
    ensures Decodes(parse, [Delta("Hi")])
  {
    PayloadHi();
  }

  /** The delta event carrying `Hi`, arriving in the two chunks
      `event: delta\ndata: {"del` and `ta":"Hi"}\n\n`, appends exactly `Hi`
      to the placeholder. */
  lemma SplitDeltaExample(prefix: seq<Message>, c1: string, c2: string, parse: PayloadParser)
    requires c1 == "event: delta\ndata: {\"del" && c2 == "ta\":\"Hi\"}\n\n"
    requires parse("{\"delta\":\"Hi\"}") == Some(Object(Some("Hi"), None))
    ensures TurnMessages(prefix + [Message(Assistant, "")], Streamed([c1, c2], None), parse)
            == prefix + [Message(Assistant, "Hi")]
  {
    TextHi(c1, c2);
    ConcatPair(c1, c2);
    DecodesHi(parse);
    ServerToClient(prefix, "", [c1, c2], None, [Delta("Hi")], parse);
    RenderedHi();
  }

  // ---------------------------------------------------------------------
  // The upstream side of an example turn

  /** Two terminated lines split into those two lines and nothing pending. */
  lemma CompleteTwoLines(l1: string, l2: string)
    requires '\n' !in l1 && '\n' !in l2
    ensures Complete(l1 + "\n" + l2 + "\n", "\n") == [l1, l2]
  {
    var x := l1 + "\n" + l2 + "\n";
    assert x == l1 + ['\n'] + (l2 + ['\n'] + "");
    SplitEmpty("\n");
    SplitCons(l2, '\n', "");
    SplitCons(l1, '\n', l2 + ['\n'] + "");
    assert Split(x, "\n") == [l1, l2, ""];
  }

  lemma LinesEventsTwo(l1: string, l2: string, parse: LineParser)
    ensures LinesEvents([l1, l2], parse) == LineEvents(l1, parse) + LineEvents(l2, parse)
  {
    LinesEventsAppend([l1], [l2], parse);
    LinesEventsOne(l1, parse);
    LinesEventsOne(l2, parse);
    assert [l1] + [l2] == [l1, l2];
  }

  /** The server's events for a stream whose text is two terminated lines
      are those of the two lines, in order. */
  lemma StreamTwoLines(l1: string, l2: string, chunks: seq<string>, parse: LineParser)
    requires '\n' !in l1 && '\n' !in l2
    requires Concat(chunks) == l1 + "\n" + l2 + "\n"
    ensures ServerEvents(Streamed(chunks, None), parse) == LineEvents(l1, parse) + LineEvents(l2, parse)
  {
    CompleteTwoLines(l1, l2);
    LinesEventsTwo(l1, l2, parse);
  }

  /** A line holding a JSON object gives the events of its record. */
  lemma ObjectLineEvents(l: string, u: UpstreamRecord, parse: LineParser)
    requires |l| > 0 && l[0] == '{' && parse(l) == Some(u)
    ensures LineEvents(l, parse) == RecordEvents(u)
  {
    assert !IsWhite(l[0]);
  }

  /** Two upstream records, content `A` and then content `B` with the
      completion flag, arriving in two chunks cut anywhere (inside the first
      line, say): the server writes `delta A`, `delta B` and `done`, and
      nothing else. */
  lemma UpstreamExample(l1: string, l2: string, k: nat, parse: LineParser)
    requires '\n' !in l1 && '\n' !in l2
    requires |l1| > 0 && l1[0] == '{' && |l2| > 0 && l2[0] == '{'
    requires parse(l1) == Some(UpstreamRecord(Some("A"), false))
    requires parse(l2) == Some(UpstreamRecord(Some("B"), true))
    requires k <= |l1 + "\n" + l2 + "\n"|
    ensures var t := l1 + "\n" + l2 + "\n";
            ServerEvents(Streamed([t[..k], t[k..]], None), parse) == [Delta("A"), Delta("B"), Done]
  {
    var t := l1 + "\n" + l2 + "\n";
    assert Concat([t[..k], t[k..]]) == t by {
      ConcatPair(t[..k], t[k..]);
      Halves(t, k);
    }
    StreamTwoLines(l1, l2, [t[..k], t[k..]], parse);
    ObjectLineEvents(l1, UpstreamRecord(Some("A"), false), parse);
    ObjectLineEvents(l2, UpstreamRecord(Some("B"), true), parse);
  }
}
