/** The chat page's turn controller (client/src/App.jsx): the message list,
    the input and the streaming flag, and `sendMessage`, which posts the
    history, reads the event stream chunk by chunk, re-frames it on blank
    lines and applies every complete event to the last assistant message. */
module ChatClient {
  import opened Wrappers
  import opened Strings
  import opened Messages
  import opened Streams

  const GREETING: string := "Hola \U{1F44B} Soy tu Clon ChatGPT mejorado. \U{00BF}En qu\U{00E9} te ayudo?"
  const CLEARED: string := "Chat limpio \U{2705} \U{00BF}En qu\U{00E9} te ayudo ahora?"
  const NO_STREAM: string := "No se pudo abrir el stream (backend no respondi\U{00F3} correctamente)."
  const UNKNOWN_ERROR: string := "Error desconocido"

  /** The annotation for an error: a blank line, the warning sign, the text. */
  function Warning(m: string): string {
    "\n\n\U{26A0}\U{FE0F} " + m
  }

  // ---------------------------------------------------------------------
  // The history sent with a request

  /** `chatHistory`: the `user` and `assistant` messages, in order. */
  function ChatHistory(msgs: seq<Message>): (r: seq<Message>)
    ensures |r| <= |msgs|
    ensures forall k :: 0 <= k < |r| ==> IsChatRole(r[k].role)
    decreases |msgs|
  {
    if msgs == [] then []
    else ChatHistory(DropLast(msgs)) + (if IsChatRole(Last(msgs).role) then [Last(msgs)] else [])
  }

  /** The filter works message by message and keeps the order. */
  lemma {:induction false} ChatHistoryAppend(a: seq<Message>, b: seq<Message>)
    ensures ChatHistory(a + b) == ChatHistory(a) + ChatHistory(b)
    decreases |b|
  {
    if b == [] {
      assert a + b == a;
    } else {
      DropLastAppend(a, b);
      ChatHistoryAppend(a, DropLast(b));
      var tail := if IsChatRole(Last(b).role) then [Last(b)] else [];
      Assoc(ChatHistory(a), ChatHistory(DropLast(b)), tail);
    }
  }

  /** A list without system messages is its own history; in particular the
      filter drops nothing the page itself creates. */
  lemma {:induction false} ChatHistoryOnlyChat(msgs: seq<Message>)
    requires forall k :: 0 <= k < |msgs| ==> IsChatRole(msgs[k].role)
    ensures ChatHistory(msgs) == msgs
    decreases |msgs|
  {
    if msgs != [] {
      ChatHistoryOnlyChat(DropLast(msgs));
      assert msgs == DropLast(msgs) + [Last(msgs)];
    }
  }

  // ---------------------------------------------------------------------
  // Updates of the message list

  /** The updater of `appendAssistant(delta)`, and of the `catch` block
      with the warning as `delta`: when the last message is an assistant
      message, only its content changes, extended by `d`; otherwise the list
      is returned as it is. */
  function AppendAssistant(msgs: seq<Message>, d: string): seq<Message> {
    if |msgs| > 0 && Last(msgs).role == Assistant then
      DropLast(msgs) + [Message(Assistant, Last(msgs).content + d)]
    else msgs
  }

  /** The length is kept; with an assistant message last, every other
      message is kept and the last one's content becomes `content + d`;
      otherwise nothing changes. */
  lemma AppendAssistantSpec(msgs: seq<Message>, d: string)
    ensures var r := AppendAssistant(msgs, d);
            && |r| == |msgs|
            && (|msgs| > 0 && msgs[|msgs| - 1].role == Assistant ==>
                  && r[..|msgs| - 1] == msgs[..|msgs| - 1]
                  && r[|msgs| - 1] == Message(Assistant, msgs[|msgs| - 1].content + d))
            && (|msgs| == 0 || msgs[|msgs| - 1].role != Assistant ==> r == msgs)
  {
  }

  lemma AppendAssistantShape(msgs: seq<Message>, d: string)
    ensures SameShape(msgs, AppendAssistant(msgs, d))
  {
    AppendAssistantSpec(msgs, d);
  }

  /** Two appends are one append of both texts. */
  lemma AppendAssistantTwice(msgs: seq<Message>, d: string, e: string)
    ensures AppendAssistant(AppendAssistant(msgs, d), e) == AppendAssistant(msgs, d + e)
  {
    if |msgs| > 0 && Last(msgs).role == Assistant {
      var c := Last(msgs).content;
      DropLastAppend(DropLast(msgs), [Message(Assistant, c + d)]);
      Assoc(c, d, e);
    }
  }

  /** `b` is `a` with at most the content of its last message changed. */
  predicate SameShape(a: seq<Message>, b: seq<Message>) {
    && |a| == |b|
    && (|a| > 0 ==> a[..|a| - 1] == b[..|b| - 1] && a[|a| - 1].role == b[|b| - 1].role)
  }

  lemma SameShapeTrans(a: seq<Message>, b: seq<Message>, c: seq<Message>)
    requires SameShape(a, b) && SameShape(b, c)
    ensures SameShape(a, c)
  {
  }

  // ---------------------------------------------------------------------
  // One event of the stream

  /** An event as the page reads it: the `event:` name and the `data:`
      payload text. */
  datatype Frame = Frame(name: string, data: string)

  /** `lines.find((l) => l.startsWith(p))`, as an index. */
  function FirstStarting(lines: seq<string>, p: string): (r: Option<nat>)
    ensures r.Some? ==> r.value < |lines| && StartsWith(lines[r.value], p)
    ensures r.Some? ==> forall k :: 0 <= k < r.value ==> !StartsWith(lines[k], p)
    ensures r.None? ==> forall k :: 0 <= k < |lines| ==> !StartsWith(lines[k], p)
    decreases |lines|
  {
    if lines == [] then None
    else if StartsWith(lines[0], p) then Some(0)
    else
      match FirstStarting(lines[1..], p)
      case None => None
      case Some(k) => Some(k + 1)
  }

  /** `line ? line.replace(marker, "").trim() : absent` for the first line
      that starts with `marker`: that line without the marker, trimmed. */
  function Field(lines: seq<string>, marker: string, absent: string): (r: string)
    requires marker != []
    ensures FirstStarting(lines, marker).None? ==> r == absent
    ensures FirstStarting(lines, marker).Some? ==>
              r == Trim(lines[FirstStarting(lines, marker).value][|marker|..])
  {
    match FirstStarting(lines, marker)
    case None => absent
    case Some(k) =>
      RemoveFirstPrefix(lines[k], marker);
      Trim(RemoveFirst(lines[k], marker))
  }

  /** The markers of the two lines the page reads from an event. */
  const EVENT_FIELD: string := "event:"
  const DATA_FIELD: string := "data:"

  /** The name and payload of one event text: `""` without an `event:`
      line, `"{}"` without a `data:` line. */
  function ParseFrame(ev: string): Frame {
    var lines := Split(ev, "\n");
    Frame(Field(lines, EVENT_FIELD, ""), Field(lines, DATA_FIELD, "{}"))
  }

  /** No line starts with `marker`. */
  predicate Unmarked(lines: seq<string>, marker: string) {
    forall j :: 0 <= j < |lines| ==> !StartsWith(lines[j], marker)
  }

  /** Line `k` is the first that starts with `marker`. */
  predicate FirstMarked(lines: seq<string>, marker: string, k: nat) {
    && k < |lines|
    && StartsWith(lines[k], marker)
    && forall j :: 0 <= j < k ==> !StartsWith(lines[j], marker)
  }

  /** Without a marked line the field is the default. */
  lemma FieldAbsent(lines: seq<string>, marker: string, absent: string)
    requires marker != [] && Unmarked(lines, marker)
    ensures Field(lines, marker, absent) == absent
  {
  }

  /** With line `k` the first marked one, the field is that line without
      its marker, trimmed. */
  lemma FieldFirstLine(lines: seq<string>, marker: string, absent: string, k: nat)
    requires marker != [] && FirstMarked(lines, marker, k)
    ensures Field(lines, marker, absent) == Trim(lines[k][|marker|..])
  {
  }

  /** The name of an event text is its first `event:` line (here line
      `k`) without the marker, trimmed, and `""` when no line starts with
      `event:`. */
  lemma ParseFrameName(ev: string, k: nat)
    ensures Unmarked(Split(ev, "\n"), EVENT_FIELD) ==> ParseFrame(ev).name == ""
    ensures FirstMarked(Split(ev, "\n"), EVENT_FIELD, k) ==>
              ParseFrame(ev).name == Trim(Split(ev, "\n")[k][|EVENT_FIELD|..])
  {
    var lines := Split(ev, "\n");
    assert ParseFrame(ev).name == Field(lines, EVENT_FIELD, "");
    if Unmarked(lines, EVENT_FIELD) {
      FieldAbsent(lines, EVENT_FIELD, "");
    }
    if FirstMarked(lines, EVENT_FIELD, k) {
      FieldFirstLine(lines, EVENT_FIELD, "", k);
    }
  }

  /** The payload of an event text is its first `data:` line (here line
      `k`) without the marker, trimmed, and `"{}"` when no line starts with
      `data:`. */
  lemma ParseFrameData(ev: string, k: nat)
    ensures Unmarked(Split(ev, "\n"), DATA_FIELD) ==> ParseFrame(ev).data == "{}"
    ensures FirstMarked(Split(ev, "\n"), DATA_FIELD, k) ==>
              ParseFrame(ev).data == Trim(Split(ev, "\n")[k][|DATA_FIELD|..])
  {
    var lines := Split(ev, "\n");
    assert ParseFrame(ev).data == Field(lines, DATA_FIELD, "{}");
    if Unmarked(lines, DATA_FIELD) {
      FieldAbsent(lines, DATA_FIELD, "{}");
    }
    if FirstMarked(lines, DATA_FIELD, k) {
      FieldFirstLine(lines, DATA_FIELD, "{}", k);
    }
  }

  /** What `JSON.parse` gives for a payload, as far as the page looks at it:
      `null`, or a value whose `delta` and `error` properties are strings or
      absent. */
  datatype DataValue = Null | Object(delta: Option<string>, error: Option<string>)

  /** `JSON.parse` on a payload; `None` when it throws. */
  type PayloadParser = string -> Option<DataValue>

  /** The `try { data = JSON.parse(dataRaw) } catch { data = {} }` block. */
  function Decode(raw: string, parse: PayloadParser): DataValue {
    match parse(raw)
    case None => Object(None, None)
    case Some(v) => v
  }

  /** A payload that does not parse reads as `{}`, an object without the two
      properties; one that parses reads as its value. */
  lemma DecodeCatch(raw: string, parse: PayloadParser)
    ensures parse(raw).None? ==> Decode(raw, parse) == Object(None, None)
    ensures parse(raw).Some? ==> Decode(raw, parse) == parse(raw).value
  {
  }

  /** `v || dflt` for a property that is a string or absent: the empty
      string is falsy. */
  function Or(v: Option<string>, dflt: string): (r: string)
    ensures dflt != "" ==> r != ""
    ensures v.Some? && v.value != "" ==> r == v.value
    ensures !(v.Some? && v.value != "") ==> r == dflt
  {
    if v.Some? && v.value != "" then v.value else dflt
  }

  /** What one event does to the turn. */
  datatype Effect = Append(text: string) | Ignore | Throw(message: string)

  /** V8's message for reading property `p` of `null`. */
  function NullRead(p: string): string {
    "Cannot read properties of null (reading '" + p + "')"
  }

  /** The two `if`s on the event name. `delta` appends `data.delta || ""`,
      `error` appends the warning with `data.error || "Error desconocido"`,
      `done` and any other name do nothing. A payload that does not parse
      counts as `{}`, so its event is still dispatched; only a `null`
      payload under one of the two names makes the property read throw. */
  function Dispatch(f: Frame, parse: PayloadParser): (r: Effect)
    ensures f.name != "delta" && f.name != "error" ==> r == Ignore
    ensures f.name == "delta" && parse(f.data).None? ==> r == Append("")
    ensures f.name == "error" && parse(f.data).None? ==> r == Append(Warning(UNKNOWN_ERROR))
    ensures r.Throw? <==> (f.name == "delta" || f.name == "error") && parse(f.data) == Some(Null)
  {
    if f.name == "delta" || f.name == "error" then
      match Decode(f.data, parse)
      case Null => Throw(NullRead(f.name))
      case Object(delta, error) =>
        if f.name == "delta" then Append(Or(delta, ""))
        else
          Append(Warning(Or(error, UNKNOWN_ERROR)))
    else Ignore
  }

  /** A payload that parses to an object: `delta` appends its `delta`
      property or `""`, and `error` appends the warning with its `error`
      property or `Error desconocido`. */
  lemma DispatchParsed(f: Frame, parse: PayloadParser)
    requires parse(f.data).Some? && parse(f.data).value.Object?
    ensures f.name == "delta" ==> Dispatch(f, parse) == Append(Or(parse(f.data).value.delta, ""))
    ensures f.name == "error" ==> Dispatch(f, parse) == Append(Warning(Or(parse(f.data).value.error, UNKNOWN_ERROR)))
  {
  }

  // ---------------------------------------------------------------------
  // A turn

  /** The message list, and the message of the error thrown, if one was. */
  datatype Progress = Progress(messages: seq<Message>, thrown: Option<string>)

  /** What an event's effect does to the turn; nothing once an error is
      thrown. */
  function Apply(p: Progress, e: Effect): (r: Progress)
    ensures p.thrown.Some? ==> r == p
  {
    if p.thrown.Some? then p
    else
      match e
      case Append(t) => Progress(AppendAssistant(p.messages, t), None)
      case Ignore => p
      case Throw(m) => Progress(p.messages, Some(m))
  }

  /** One iteration of `for (const ev of events)`. */
  function Step(p: Progress, ev: string, parse: PayloadParser): (r: Progress)
    ensures p.thrown.Some? ==> r == p
  {
    Apply(p, Dispatch(ParseFrame(ev), parse))
  }

  /** The events applied in order, up to the first that throws. */
  function ApplyFrames(p: Progress, events: seq<string>, parse: PayloadParser): Progress
    decreases |events|
  {
    if events == [] then p else Step(ApplyFrames(p, DropLast(events), parse), Last(events), parse)
  }

  lemma ApplyFramesSnoc(p: Progress, events: seq<string>, i: nat, parse: PayloadParser)
    requires i < |events|
    ensures ApplyFrames(p, events[..i + 1], parse) == Step(ApplyFrames(p, events[..i], parse), events[i], parse)
  {
    assert DropLast(events[..i + 1]) == events[..i];
  }

  /** Applying the events of two texts one after the other is applying
      them all: what happens to the list does not depend on how the events
      were grouped into chunks. */
  lemma {:induction false} ApplyFramesAppend(p: Progress, a: seq<string>, b: seq<string>, parse: PayloadParser)
    ensures ApplyFrames(p, a + b, parse) == ApplyFrames(ApplyFrames(p, a, parse), b, parse)
    decreases |b|
  {
    if b == [] {
      assert a + b == a;
    } else {
      DropLastAppend(a, b);
      ApplyFramesAppend(p, a, DropLast(b), parse);
    }
  }

  /** Once an error is thrown, no later event changes anything. */
  lemma {:induction false} ApplyFramesThrown(p: Progress, events: seq<string>, parse: PayloadParser)
    requires p.thrown.Some?
    ensures ApplyFrames(p, events, parse) == p
    decreases |events|
  {
    if events != [] {
      ApplyFramesThrown(p, DropLast(events), parse);
    }
  }

  /** Events change at most the content of the last message. */
  lemma {:induction false} ApplyFramesShape(p: Progress, events: seq<string>, parse: PayloadParser)
    ensures SameShape(p.messages, ApplyFrames(p, events, parse).messages)
    decreases |events|
  {
    if events != [] {
      var q := ApplyFrames(p, DropLast(events), parse);
      ApplyFramesShape(p, DropLast(events), parse);
      if q.thrown.None? {
        match Dispatch(ParseFrame(Last(events)), parse)
        case Append(t) => AppendAssistantShape(q.messages, t);
        case Ignore =>
        case Throw(_) =>
      }
      SameShapeTrans(p.messages, q.messages, Step(q, Last(events), parse).messages);
    }
  }

  /** The state at the end of the `try` block: after a rejected `fetch` or
      a reply without a stream, the list is untouched and an error is
      thrown; after a stream, every complete event of the delivered text
      has been applied, and a failed read throws unless an event already
      did. */
  function Streaming(msgs: seq<Message>, reply: Reply, parse: PayloadParser): (r: Progress)
    ensures reply.Rejected? ==> r == Progress(msgs, Some(reply.message))
    ensures reply.NoStream? ==> r == Progress(msgs, Some(NO_STREAM))
    ensures reply.Streamed? && reply.failure.Some? ==> r.thrown.Some?
    ensures r.thrown.None? ==> reply.Streamed? && reply.failure.None?
  {
    match reply
    case Rejected(m) => Progress(msgs, Some(m))
    case NoStream => Progress(msgs, Some(NO_STREAM))
    case Streamed(chunks, failure) =>
      var p := ApplyFrames(Progress(msgs, None), Complete(Concat(chunks), "\n\n"), parse);
      if p.thrown.Some? then p else Progress(p.messages, failure)
  }

  /** The `catch` block: the error's message is appended, as a warning, to
      the last assistant message, after what was already streamed. */
  function Settle(p: Progress): seq<Message> {
    if p.thrown.Some? then AppendAssistant(p.messages, Warning(p.thrown.value)) else p.messages
  }

  /** The message list at the end of a turn that started from `msgs`. */
  function TurnMessages(msgs: seq<Message>, reply: Reply, parse: PayloadParser): seq<Message> {
    Settle(Streaming(msgs, reply, parse))
  }

  /** The `catch` keeps what was streamed: the warning goes after the
      content the last assistant message already has, and every other
      message is left alone; without a thrown error nothing changes. */
  lemma SettleKeepsStreamed(p: Progress)
    ensures |Settle(p)| == |p.messages|
    ensures p.thrown.None? ==> Settle(p) == p.messages
    ensures var n := |p.messages|;
            p.thrown.Some? && n > 0 && p.messages[n - 1].role == Assistant ==>
              && Settle(p)[..n - 1] == p.messages[..n - 1]
              && Settle(p)[n - 1] == Message(Assistant, p.messages[n - 1].content + Warning(p.thrown.value))
    ensures p.thrown.Some? && (|p.messages| == 0 || p.messages[|p.messages| - 1].role != Assistant) ==> Settle(p) == p.messages
  {
    if p.thrown.Some? {
      AppendAssistantSpec(p.messages, Warning(p.thrown.value));
    }
  }

  /** A turn that cannot reach the stream (a rejected `fetch`, or a reply
      without a body) leaves the list as it was except for the warning on
      the last assistant message; a turn whose events and reads all succeed
      ends with exactly what the events appended. */
  lemma TurnOutcomes(msgs: seq<Message>, reply: Reply, parse: PayloadParser)
    ensures reply.Rejected? ==> TurnMessages(msgs, reply, parse) == AppendAssistant(msgs, Warning(reply.message))
    ensures reply.NoStream? ==> TurnMessages(msgs, reply, parse) == AppendAssistant(msgs, Warning(NO_STREAM))
    ensures reply.Streamed? && reply.failure.None? &&
            ApplyFrames(Progress(msgs, None), Complete(Concat(reply.chunks), "\n\n"), parse).thrown.None? ==>
              TurnMessages(msgs, reply, parse) == ApplyFrames(Progress(msgs, None), Complete(Concat(reply.chunks), "\n\n"), parse).messages
  {
  }

  /** A turn changes at most the content of the last message. */
  lemma TurnShape(msgs: seq<Message>, reply: Reply, parse: PayloadParser)
    ensures SameShape(msgs, TurnMessages(msgs, reply, parse))
  {
    var p := Streaming(msgs, reply, parse);
    if reply.Streamed? {
      ApplyFramesShape(Progress(msgs, None), Complete(Concat(reply.chunks), "\n\n"), parse);
    }
    if p.thrown.Some? {
      AppendAssistantShape(p.messages, Warning(p.thrown.value));
    }
    SameShapeTrans(msgs, p.messages, Settle(p));
  }

  /** An accepted send leaves the earlier messages alone and adds the user
      message and one assistant message. */
  lemma SendShape(prior: seq<Message>, user: Message, result: seq<Message>)
    requires SameShape(prior + [user, Message(Assistant, "")], result)
    ensures |result| == |prior| + 2
    ensures result[..|prior| + 1] == prior + [user]
    ensures result[|prior| + 1].role == Assistant
  {
    var started := prior + [user, Message(Assistant, "")];
    assert started[..|started| - 1] == prior + [user];
  }

  /** Text that completes no event changes nothing: an event without its
      blank line is never applied, however the stream is cut. */
  lemma UnterminatedEventIgnored(msgs: seq<Message>, chunks: seq<string>, t: string, failure: Option<string>, parse: PayloadParser)
    requires Free(Pending(Concat(chunks), "\n\n") + t, "\n\n")
    ensures TurnMessages(msgs, Streamed(chunks + [t], failure), parse) == TurnMessages(msgs, Streamed(chunks, failure), parse)
  {
    assert Concat(chunks + [t]) == Concat(chunks) + t by {
      DropLastAppend(chunks, [t]);
    }
    CompleteUnterminated(Concat(chunks), t, "\n\n");
  }

  /** An error thrown by an event of the first `k` chunks is the error of
      the whole stream: the events of later chunks are never applied. */
  lemma ThrownEarly(msgs: seq<Message>, chunks: seq<string>, k: nat, parse: PayloadParser)
    requires k <= |chunks|
    requires ApplyFrames(Progress(msgs, None), Complete(Concat(chunks[..k]), "\n\n"), parse).thrown.Some?
    ensures ApplyFrames(Progress(msgs, None), Complete(Concat(chunks), "\n\n"), parse)
         == ApplyFrames(Progress(msgs, None), Complete(Concat(chunks[..k]), "\n\n"), parse)
  {
    var x, y := Concat(chunks[..k]), Concat(chunks[k..]);
    assert Concat(chunks) == x + y by {
      Halves(chunks, k);
      ConcatAppend(chunks[..k], chunks[k..]);
    }
    CompleteAppend(x, y, "\n\n");
    var p0 := Progress(msgs, None);
    ApplyFramesAppend(p0, Complete(x, "\n\n"), Complete(Pending(x, "\n\n") + y, "\n\n"), parse);
    ApplyFramesThrown(ApplyFrames(p0, Complete(x, "\n\n"), parse), Complete(Pending(x, "\n\n") + y, "\n\n"), parse);
  }

  // ---------------------------------------------------------------------
  // The page

  class Chat {
    var messages: seq<Message>
    var input: string
    var isStreaming: bool

    /** The initial state: the greeting, an empty input, no turn running. */
    constructor ()
      ensures messages == [Message(Assistant, GREETING)] && input == "" && !isStreaming
    {
      messages := [Message(Assistant, GREETING)];
      input := "";
      isStreaming := false;
    }

    /** The text area's `onChange`: `setInput(e.target.value)`. */
    method SetInput(text: string)
      modifies this
      ensures input == text && messages == old(messages) && isStreaming == old(isStreaming)
    {
      input := text;
    }

    /** `clearChat`: refused during a turn; otherwise the list becomes the
        single "chat cleared" message. */
    method ClearChat()
      modifies this
      ensures old(isStreaming) ==> messages == old(messages)
      ensures !old(isStreaming) ==> messages == [Message(Assistant, CLEARED)]
      ensures input == old(input) && isStreaming == old(isStreaming)
    {
      if isStreaming {
        return;
      }
      messages := [Message(Assistant, CLEARED)];
    }

    /** `sendMessage`, with the outcome of `fetch` as `reply`. Returns the
        history posted, if a request was made. A blank input or a running
        turn leaves everything as it is. Otherwise the input is cleared, the
        trimmed input and an empty assistant message are appended, the
        history posted is the earlier `user`/`assistant` messages plus the
        new user message, the list ends as `TurnMessages` says, and the
        streaming flag is down again. */
    method SendMessage(reply: Reply, parse: PayloadParser) returns (sent: Option<seq<Message>>)
      modifies this
      ensures Trim(old(input)) == "" || old(isStreaming) ==>
                && sent == None && messages == old(messages)
                && input == old(input) && isStreaming == old(isStreaming)
      ensures Trim(old(input)) != "" && !old(isStreaming) ==>
                var user := Message(User, Trim(old(input)));
                && sent == Some(ChatHistory(old(messages)) + [user])
                && messages == TurnMessages(old(messages) + [user, Message(Assistant, "")], reply, parse)
                && |messages| == |old(messages)| + 2
                && messages[..|old(messages)| + 1] == old(messages) + [user]
                && messages[|old(messages)| + 1].role == Assistant
                && input == "" && !isStreaming
    {
      if Trim(input) == "" || isStreaming {
        return None;
      }
      var user := Message(User, Trim(input));
      var prior := messages;
      StartTurn(user);
      sent := Some(ChatHistory(prior) + [user]);
      RunTurn(reply, parse);
      TurnShape(prior + [user, Message(Assistant, "")], reply, parse);
      SendShape(prior, user, messages);
    }

    /** Clears the input, raises the flag, and appends the user message and
        the empty assistant placeholder in one update. */
    method StartTurn(user: Message)
      modifies this
      ensures messages == old(messages) + [user, Message(Assistant, "")]
      ensures input == "" && isStreaming
    {
      input := "";
      isStreaming := true;
      messages := messages + [user, Message(Assistant, "")];
    }

    /** The `try`/`catch`/`finally` of a turn whose placeholder is in place:
        the list ends as `TurnMessages` says and the flag goes down. */
    method RunTurn(reply: Reply, parse: PayloadParser)
      modifies this
      ensures messages == TurnMessages(old(messages), reply, parse)
      ensures input == old(input) && !isStreaming
    {
      var thrown: Option<string>;
      match reply {
        case Rejected(m) =>
          thrown := Some(m);
        case NoStream =>
          thrown := Some(NO_STREAM);
        case Streamed(chunks, failure) =>
          thrown := ReadStream(chunks, failure, parse);
      }
      if thrown.Some? {
        messages := AppendAssistant(messages, Warning(thrown.value));
      }
      isStreaming := false;
    }

    /** The `while (true)` read loop: keeps the unterminated event in
        `buffer` and applies the complete ones. Returns the error thrown by
        an event or by a failed read, if any. */
    method ReadStream(chunks: seq<string>, failure: Option<string>, parse: PayloadParser) returns (thrown: Option<string>)
      modifies this
      ensures Progress(messages, thrown) == Streaming(old(messages), Streamed(chunks, failure), parse)
      ensures input == old(input) && isStreaming == old(isStreaming)
    {
      ghost var p0 := Progress(messages, None);
      ghost var whole := ApplyFrames(p0, Complete(Concat(chunks), "\n\n"), parse);
      assert Streaming(messages, Streamed(chunks, failure), parse)
          == if whole.thrown.Some? then whole else Progress(whole.messages, failure);
      var reader := new ChunkReader(chunks, failure);
      var buffer := "";
      ghost var delivered := "";
      PendingEmpty("\n\n");
      assert chunks[..0] == [];
      while true
        invariant reader.Valid() && reader.chunks == chunks && reader.failure == failure
        invariant delivered == Concat(chunks[..reader.pos])
        invariant buffer == Pending(delivered, "\n\n")
        invariant Progress(messages, None) == ApplyFrames(p0, Complete(delivered, "\n\n"), parse)
        invariant input == old(input) && isStreaming == old(isStreaming)
        decreases |chunks| - reader.pos
      {
        var r := reader.Read();
        if !r.Chunk? {
          assert chunks[..reader.pos] == chunks;
          thrown := if r.Failed? then Some(r.message) else None;
          assert whole == Progress(messages, None) && thrown == failure;
          return;
        }
        assert delivered + r.text == Concat(chunks[..reader.pos]) by {
          ConcatNext(chunks, reader.pos - 1);
        }
        ChunkStep(p0, delivered, r.text, parse);
        var rest;
        thrown, rest := ApplyChunk(buffer, r.text, parse);
        delivered := delivered + r.text;
        if thrown.Some? {
          ThrownEarly(p0.messages, chunks, reader.pos, parse);
          assert whole == Progress(messages, thrown);
          return;
        }
        buffer := rest;
      }
    }

    /** One chunk: `buffer += chunk`, the split on blank lines, the new
        `buffer`, and the loop over the complete events. */
    method ApplyChunk(buffer: string, text: string, parse: PayloadParser) returns (thrown: Option<string>, rest: string)
      modifies this
      ensures rest == Pending(buffer + text, "\n\n") && Free(rest, "\n\n")
      ensures Progress(messages, thrown) == ApplyFrames(Progress(old(messages), None), Complete(buffer + text, "\n\n"), parse)
      ensures input == old(input) && isStreaming == old(isStreaming)
    {
      var (events, pending) := Reframe(buffer, text, "\n\n");
      thrown := ApplyEvents(events, parse);
      rest := pending;
    }

    /** The `for (const ev of events)` loop over the complete events of one
        chunk. Returns the error an event throws, if one does. */
    method ApplyEvents(events: seq<string>, parse: PayloadParser) returns (thrown: Option<string>)
      modifies this
      ensures Progress(messages, thrown) == ApplyFrames(Progress(old(messages), None), events, parse)
      ensures input == old(input) && isStreaming == old(isStreaming)
    {
      ghost var p0 := Progress(messages, None);
      thrown := None;
      var i := 0;
      assert events[..0] == [];
      while i < |events| && thrown.None?
        invariant 0 <= i <= |events|
        invariant Progress(messages, thrown) == ApplyFrames(p0, events[..i], parse)
        invariant input == old(input) && isStreaming == old(isStreaming)
      {
        ApplyFramesSnoc(p0, events, i, parse);
        thrown := ApplyEvent(events[i], parse);
        i := i + 1;
      }
      FramesStopped(p0, events, i, parse);
    }

    /** The body of the `for` loop: reads the name and payload of one event
        and does what it calls for. */
    method ApplyEvent(ev: string, parse: PayloadParser) returns (thrown: Option<string>)
      modifies this
      ensures Progress(messages, thrown) == Step(Progress(old(messages), None), ev, parse)
      ensures input == old(input) && isStreaming == old(isStreaming)
    {
      var effect := Dispatch(ParseFrame(ev), parse);
      thrown := ApplyEffect(effect);
    }

    /** `appendAssistant(...)` for an append; a throw leaves the list. */
    method ApplyEffect(effect: Effect) returns (thrown: Option<string>)
      modifies this
      ensures Progress(messages, thrown) == Apply(Progress(old(messages), None), effect)
      ensures input == old(input) && isStreaming == old(isStreaming)
    {
      match effect {
        case Append(t) =>
          messages := AppendAssistant(messages, t);
          thrown := None;
        case Ignore =>
          thrown := None;
        case Throw(m) =>
          thrown := Some(m);
      }
    }
  }

  /** One chunk more: the events it completes are those of the pending
      text extended by the chunk, applied after the earlier ones. */
  lemma ChunkStep(p0: Progress, before: string, text: string, parse: PayloadParser)
    ensures Pending(before + text, "\n\n") == Pending(Pending(before, "\n\n") + text, "\n\n")
    ensures ApplyFrames(p0, Complete(before + text, "\n\n"), parse)
         == ApplyFrames(ApplyFrames(p0, Complete(before, "\n\n"), parse), Complete(Pending(before, "\n\n") + text, "\n\n"), parse)
  {
    CompleteAppend(before, text, "\n\n");
    ApplyFramesAppend(p0, Complete(before, "\n\n"), Complete(Pending(before, "\n\n") + text, "\n\n"), parse);
  }

  /** The events applied once all are applied or one has thrown are the
      outcome of the whole sequence. */
  lemma FramesStopped(p: Progress, events: seq<string>, i: nat, parse: PayloadParser)
    requires i <= |events|
    requires i == |events| || ApplyFrames(p, events[..i], parse).thrown.Some?
    ensures ApplyFrames(p, events, parse) == ApplyFrames(p, events[..i], parse)
  {
    Halves(events, i);
    ApplyFramesAppend(p, events[..i], events[i..], parse);
    if i == |events| {
      assert events[i..] == [];
    } else {
      ApplyFramesThrown(ApplyFrames(p, events[..i], parse), events[i..], parse);
    }
  }
}
