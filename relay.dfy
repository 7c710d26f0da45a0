/** The relay endpoint `POST /api/chat/stream`: request validation, the
    history filter, the upstream request, and the re-framing of the upstream
    line-delimited JSON (NDJSON) stream into the server's event stream. */
module Relay {
  import opened Wrappers
  import opened Strings
  import opened Messages
  import opened Streams
  import opened Sse

  /** An element of the request's `messages` array as the filter sees it: a
      falsy value, or a value whose `role` and `content` are strings
      (`Some`) or anything else (`None`). */
  datatype Entry = Falsy | Item(role: Option<string>, content: Option<string>)

  /** The request body's `messages` field. */
  datatype MessagesField =
    /** missing, or another falsy value */
    | Absent
    /** truthy, but not an array */
    | NotArray
    | Array(entries: seq<Entry>)

  /** One upstream record after `JSON.parse`: `obj?.message?.content` when it
      is a string, and whether `obj?.done` is truthy. */
  datatype UpstreamRecord = UpstreamRecord(content: Option<string>, done: bool)

  /** The body of the upstream request, `{ model, messages, stream }`. */
  datatype ChatRequest = ChatRequest(model: string, messages: seq<Message>, stream: bool)

  /** `JSON.parse` of one upstream line; `None` where it throws. */
  type LineParser = string -> Option<UpstreamRecord>

  const INVALID_FORMAT: string := "Formato inv\U{00E1}lido: 'messages' debe ser un array"

  const UPSTREAM_DOWN: string :=
    "Ollama no respondi\U{00F3}. Verifica que est\U{00E9} corriendo y que el modelo exista."

  /** The fixed system instruction, as it reads after `trim()`. */
  const SYSTEM_PROMPT: string :=
    "Eres un asistente avanzado tipo ChatGPT.\n"
    + "Responde en espa\U{00F1}ol.\n"
    + "S\U{00E9} claro, estructurado y profesional.\n"
    + "Cuando sea \U{00FA}til, usa ejemplos.\n"
    + "Si el usuario pide c\U{00F3}digo, entr\U{00E9}galo bien formateado."

  const DEFAULT_MODEL: string := "llama3.2:3b"

  /** `process.env.OLLAMA_MODEL || "llama3.2:3b"`. */
  function ModelName(env: Option<string>): (r: string)
    ensures r != ""
    ensures env.Some? && env.value != "" ==> r == env.value
    ensures !(env.Some? && env.value != "") ==> r == DEFAULT_MODEL
  {
    if env.Some? && env.value != "" then env.value else DEFAULT_MODEL
  }

  // ---------------------------------------------------------------------
  // The history filter

  /** The role named `name`, among the two a history may carry. */
  function ChatRoleNamed(name: string): (r: Option<Role>)
    ensures r.Some? <==> name == "user" || name == "assistant"
    ensures r.Some? ==> IsChatRole(r.value) && RoleName(r.value) == name
  {
    if name == "user" then Some(User)
    else if name == "assistant" then Some(Assistant)
    else None
  }

  /** The message an entry contributes to `safeMessages`: one exactly when
      the entry is truthy, its role is `user` or `assistant` and its content
      is a string, with role and content unchanged. */
  function Kept(e: Entry): (r: Option<Message>)
    ensures r.Some? <==> e.Item? && e.role.Some? && (e.role.value == "user" || e.role.value == "assistant") && e.content.Some?
    ensures r.Some? ==> IsChatRole(r.value.role) && RoleName(r.value.role) == e.role.value && r.value.content == e.content.value
  {
    match e
    case Falsy => None
    case Item(role, content) =>
      if role.Some? && content.Some? && ChatRoleNamed(role.value).Some? then
        Some(Message(ChatRoleNamed(role.value).value, content.value))
      else None
  }

  function KeptSeq(e: Entry): seq<Message> {
    match Kept(e)
    case None => []
    case Some(m) => [m]
  }

  /** `messages.filter(...)` followed by `.map((m) => ({ role, content }))`:
      never longer than the input, and only `user`/`assistant` messages. */
  function SafeMessages(entries: seq<Entry>): (r: seq<Message>)
    ensures |r| <= |entries|
    ensures forall k :: 0 <= k < |r| ==> IsChatRole(r[k].role)
    decreases |entries|
  {
    if entries == [] then [] else SafeMessages(DropLast(entries)) + KeptSeq(Last(entries))
  }

  /** A single entry is filtered on its own: it contributes the message
      `Kept` gives for it, or nothing. */
  lemma SafeMessagesOne(e: Entry)
    ensures Kept(e).Some? ==> SafeMessages([e]) == [Kept(e).value]
    ensures Kept(e).None? ==> SafeMessages([e]) == []
  {
    assert DropLast([e]) == [] && Last([e]) == e;
  }

  /** The filter works entry by entry and keeps the order: filtering a
      concatenation is concatenating the filtered parts. Together with
      `SafeMessagesOne` this pins the filter down as the order-preserving
      subsequence of the accepted entries. */
  lemma {:induction false} SafeMessagesAppend(a: seq<Entry>, b: seq<Entry>)
    ensures SafeMessages(a + b) == SafeMessages(a) + SafeMessages(b)
    decreases |b|
  {
    if b == [] {
      assert a + b == a;
    } else {
      DropLastAppend(a, b);
      SafeMessagesAppend(a, DropLast(b));
      Assoc(SafeMessages(a), SafeMessages(DropLast(b)), KeptSeq(Last(b)));
    }
  }

  /** Entries the filter rejects contribute nothing, wherever they stand. */
  lemma DroppedEntry(pre: seq<Entry>, e: Entry, post: seq<Entry>)
    requires Kept(e).None?
    ensures SafeMessages(pre + [e] + post) == SafeMessages(pre) + SafeMessages(post)
  {
    SafeMessagesAppend(pre + [e], post);
    SafeMessagesAppend(pre, [e]);
    SafeMessagesOne(e);
    assert SafeMessages(pre + [e]) == SafeMessages(pre);
  }

  /** An accepted entry contributes its message exactly where it stands,
      between the messages of the entries before it and after it. */
  lemma KeptEntry(pre: seq<Entry>, e: Entry, post: seq<Entry>)
    requires Kept(e).Some?
    ensures SafeMessages(pre + [e] + post) == SafeMessages(pre) + [Kept(e).value] + SafeMessages(post)
  {
    SafeMessagesAppend(pre + [e], post);
    SafeMessagesAppend(pre, [e]);
    SafeMessagesOne(e);
  }

  // ---------------------------------------------------------------------
  // From upstream lines to events

  /** The events of one parsed record: a `delta` carrying the content
      exactly when the content is a non-empty string, a `done` exactly when
      the completion flag is set, and the `delta` first. */
  function RecordEvents(u: UpstreamRecord): (r: seq<Event>)
    ensures (|r| > 0 && r[0].Delta?) <==> u.content.Some? && u.content.value != ""
    ensures |r| > 0 && r[0].Delta? ==> r[0].text == u.content.value
    ensures (|r| > 0 && r[|r| - 1].Done?) <==> u.done
    ensures |r| == (if u.content.Some? && u.content.value != "" then 1 else 0) + (if u.done then 1 else 0)
    ensures forall k :: 0 <= k < |r| ==> !r[k].Error?
  {
    var c := u.content.Some? && u.content.value != "";
    if c && u.done then [Delta(u.content.value), Done]
    else if c then [Delta(u.content.value)]
    else if u.done then [Done]
    else []
  }

  /** The events one complete upstream line produces: none for a blank or
      whitespace-only line or a line that does not parse, those of the
      record otherwise. */
  function LineEvents(line: string, parse: LineParser): (r: seq<Event>)
    ensures AllWhite(line) || parse(line).None? ==> r == []
    ensures !AllWhite(line) && parse(line).Some? ==> r == RecordEvents(parse(line).value)
  {
    TrimEmptyIff(line);
    if Trim(line) == "" then []
    else
      match parse(line)
      case None => []
      case Some(u) => RecordEvents(u)
  }

  /** The events of a sequence of complete lines, in line order. */
  function LinesEvents(lines: seq<string>, parse: LineParser): (r: seq<Event>)
    ensures forall k :: 0 <= k < |r| ==> !r[k].Error?
    decreases |lines|
  {
    if lines == [] then [] else LinesEvents(DropLast(lines), parse) + LineEvents(Last(lines), parse)
  }

  lemma {:induction false} LinesEventsAppend(a: seq<string>, b: seq<string>, parse: LineParser)
    ensures LinesEvents(a + b, parse) == LinesEvents(a, parse) + LinesEvents(b, parse)
    decreases |b|
  {
    if b == [] {
      assert a + b == a;
    } else {
      DropLastAppend(a, b);
      LinesEventsAppend(a, DropLast(b), parse);
      Assoc(LinesEvents(a, parse), LinesEvents(DropLast(b), parse), LineEvents(Last(b), parse));
    }
  }

  lemma LinesEventsOne(line: string, parse: LineParser)
    ensures LinesEvents([line], parse) == LineEvents(line, parse)
  {
    assert DropLast([line]) == [] && Last([line]) == line;
  }

  /** The events of the first `i + 1` lines: those of the first `i`, then
      those of line `i`. */
  lemma LinesEventsSnoc(lines: seq<string>, i: nat, parse: LineParser)
    requires i < |lines|
    ensures LinesEvents(lines[..i + 1], parse) == LinesEvents(lines[..i], parse) + LineEvents(lines[i], parse)
  {
    assert DropLast(lines[..i + 1]) == lines[..i];
  }

  /** Error containment: a line that fails to parse, between any other
      lines, is skipped without affecting the events of the others. */
  lemma MalformedLineSkipped(pre: seq<string>, line: string, post: seq<string>, parse: LineParser)
    requires parse(line).None?
    ensures LinesEvents(pre + [line] + post, parse) == LinesEvents(pre, parse) + LinesEvents(post, parse)
  {
    LinesEventsAppend(pre + [line], post, parse);
    LinesEventsAppend(pre, [line], parse);
    LinesEventsOne(line, parse);
  }

  /** The events of the upstream text received so far: those of its
      complete lines; the pending unterminated line produces nothing yet. */
  function StreamEvents(text: string, parse: LineParser): (r: seq<Event>)
    ensures forall k :: 0 <= k < |r| ==> !r[k].Error?
  {
    LinesEvents(Complete(text, "\n"), parse)
  }

  /** Chunk-boundary independence, step by step: receiving `c` after `x`
      emits exactly the events of the lines that `c` completes, those of
      the pending line of `x` extended by `c`. */
  lemma StreamEventsAppend(x: string, c: string, parse: LineParser)
    ensures StreamEvents(x + c, parse) == StreamEvents(x, parse) + LinesEvents(Complete(Pending(x, "\n") + c, "\n"), parse)
  {
    CompleteAppend(x, c, "\n");
    LinesEventsAppend(Complete(x, "\n"), Complete(Pending(x, "\n") + c, "\n"), parse);
  }

  /** A trailing line without a line feed is never emitted, whatever it is. */
  lemma UnterminatedTailSilent(x: string, t: string, parse: LineParser)
    requires '\n' !in t
    ensures StreamEvents(x + t, parse) == StreamEvents(x, parse)
  {
    var p := Pending(x, "\n");
    assert Free(p, "\n") by {
      SplitPieces(x, "\n");
      var parts := Split(x, "\n");
      assert p == parts[|parts| - 1];
    }
    FreeCharAppend(p, t, '\n');
    CompleteUnterminated(x, t, "\n");
  }

  /** Everything the handler writes, given what `fetch` of the upstream
      service gives: one `error` for a rejected fetch or a reply without a
      stream; otherwise the events of every complete line, followed by one
      `error` if a read fails. */
  function ServerEvents(reply: Reply, parse: LineParser): (r: seq<Event>)
    ensures forall k :: 0 <= k < |r| && r[k].Error? ==> k == |r| - 1
    ensures (|r| > 0 && r[|r| - 1].Error?) <==> !(reply.Streamed? && reply.failure.None?)
    ensures reply.Rejected? ==> r == [Error(reply.message)]
    ensures reply.NoStream? ==> r == [Error(UPSTREAM_DOWN)]
    ensures reply.Streamed? ==>
              && |StreamEvents(Concat(reply.chunks), parse)| <= |r|
              && r[..|StreamEvents(Concat(reply.chunks), parse)|] == StreamEvents(Concat(reply.chunks), parse)
    ensures reply.Streamed? && reply.failure.Some? ==> r[|r| - 1] == Error(reply.failure.value)
  {
    match reply
    case Rejected(m) => [Error(m)]
    case NoStream => [Error(UPSTREAM_DOWN)]
    case Streamed(chunks, failure) =>
      var es := StreamEvents(Concat(chunks), parse);
      if failure.None? then es else es + [Error(failure.value)]
  }
}
