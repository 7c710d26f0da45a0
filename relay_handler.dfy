/** The handler of `POST /api/chat/stream` (server/server.js), written as
    the source writes it: successive `res.write` calls on a response, a read
    loop that reassigns `buffer`, and a loop over the complete lines. */
module RelayHandler {
  import opened Wrappers
  import opened Strings
  import opened Messages
  import opened Streams
  import opened Sse
  import opened Relay

  /** The outbound response: the events written so far, each standing for
      its two `res.write` calls, and whether `res.end()` was called. */
  class Response {
    var events: seq<Event>
    var ended: bool

    constructor ()
      ensures events == [] && !ended
    {
      events := [];
      ended := false;
    }

    /** The text of every `res.write` so far, in order. */
    function Written(): seq<string>
      reads this
    {
      Writes(events)
    }

    /** The two writes of one event: `event: <name>\n`, then
        `data: <json>\n\n`. */
    method Emit(e: Event)
      requires !ended
      modifies this
      ensures !ended && events == old(events) + [e]
      ensures Written() == old(Written()) + [EventLine(e), DataLine(e)]
    {
      events := events + [e];
      WritesSnoc(old(events), e);
    }

    /** `res.end()`. */
    method End()
      requires !ended
      modifies this
      ensures ended && events == old(events)
    {
      ended := true;
    }
  }

  /** `POST /api/chat/stream`. Returns the request sent upstream, if any.
      An invalid `messages` field gets one `error` event and no upstream
      request; otherwise the upstream request carries the system
      instruction followed by the filtered history, and the response is
      exactly the events `ServerEvents` describes, written as
      `Writes(ServerEvents(...))`. The response is always ended. */
  method Handle(messages: MessagesField, env: Option<string>, reply: Reply, parse: LineParser, res: Response)
    returns (sent: Option<ChatRequest>)
    requires res.events == [] && !res.ended
    modifies res
    ensures res.ended
    ensures !messages.Array? ==> sent == None && res.events == [Error(INVALID_FORMAT)]
    ensures messages.Array? ==>
              && sent == Some(ChatRequest(ModelName(env), [Message(System, SYSTEM_PROMPT)] + SafeMessages(messages.entries), true))
              && res.events == ServerEvents(reply, parse)
    ensures res.Written() == Writes(res.events)
  {
    if !messages.Array? {
      res.Emit(Error(INVALID_FORMAT));
      res.End();
      return None;
    }
    var safe := SafeMessages(messages.entries);
    sent := Some(ChatRequest(ModelName(env), [Message(System, SYSTEM_PROMPT)] + safe, true));
    var thrown: Option<string> := None;
    match reply {
      case Rejected(m) =>
        thrown := Some(m);
      case NoStream =>
        thrown := Some(UPSTREAM_DOWN);
      case Streamed(chunks, failure) =>
        thrown := ReadLoop(chunks, failure, parse, res);
    }
    if thrown.Some? {
      res.Emit(Error(thrown.value));
    }
    res.End();
  }

  /** The body of the `for (const line of lines)` loop: skips a blank line
      and a line that does not parse, otherwise writes the record's events. */
  method EmitLine(line: string, parse: LineParser, res: Response)
    requires !res.ended
    modifies res
    ensures !res.ended && res.events == old(res.events) + LineEvents(line, parse)
  {
    if Trim(line) == "" {
      assert res.events == old(res.events) + [];
      return;
    }
    var obj := parse(line);
    if obj.None? {
      assert res.events == old(res.events) + [];
      return;
    }
    EmitRecord(obj.value, res);
  }

  /** Writes a `delta` event when the record's content is a non-empty
      string, then a `done` event when its completion flag is set. */
  method EmitRecord(u: UpstreamRecord, res: Response)
    requires !res.ended
    modifies res
    ensures !res.ended && res.events == old(res.events) + RecordEvents(u)
  {
    var delta := if u.content.Some? then u.content.value else "";
    if delta != "" {
      res.Emit(Delta(delta));
    }
    if u.done {
      res.Emit(Done);
    }
  }

  /** Writes the events of the complete lines of one chunk, in order. */
  method EmitLines(lines: seq<string>, parse: LineParser, res: Response)
    requires !res.ended
    modifies res
    ensures !res.ended && res.events == old(res.events) + LinesEvents(lines, parse)
  {
    ghost var e0 := res.events;
    var i := 0;
    assert lines[..0] == [];
    while i < |lines|
      invariant 0 <= i <= |lines|
      invariant !res.ended && res.events == e0 + LinesEvents(lines[..i], parse)
    {
      ghost var prior := LinesEvents(lines[..i], parse);
      EmitLine(lines[i], parse, res);
      LinesEventsSnoc(lines, i, parse);
      Assoc(e0, prior, LineEvents(lines[i], parse));
      i := i + 1;
    }
    assert lines[..i] == lines;
  }

  /** The read loop: reads the upstream body chunk by chunk, keeps the
      unterminated line in `buffer`, and writes the events of every complete
      line. Returns the message of a failed read, if one fails. */
  method ReadLoop(chunks: seq<string>, failure: Option<string>, parse: LineParser, res: Response)
    returns (thrown: Option<string>)
    requires res.events == [] && !res.ended
    modifies res
    ensures !res.ended && thrown == failure
    ensures res.events == StreamEvents(Concat(chunks), parse)
  {
    var reader := new ChunkReader(chunks, failure);
    var buffer := "";
    PendingEmpty("\n");
    assert chunks[..0] == [];
    while true
      invariant reader.Valid() && reader.chunks == chunks && reader.failure == failure
      invariant buffer == Pending(Concat(chunks[..reader.pos]), "\n")
      invariant '\n' !in buffer
      invariant !res.ended && res.events == StreamEvents(Concat(chunks[..reader.pos]), parse)
      decreases |chunks| - reader.pos
    {
      ghost var before := Concat(chunks[..reader.pos]);
      var r := reader.Read();
      if !r.Chunk? {
        assert chunks[..reader.pos] == chunks;
        thrown := if r.Failed? then Some(r.message) else None;
        return;
      }
      ghost var after := Concat(chunks[..reader.pos]);
      assert after == before + r.text by {
        ConcatNext(chunks, reader.pos - 1);
      }
      var (lines, rest) := Reframe(buffer, r.text, "\n");
      EmitLines(lines, parse, res);
      StreamEventsAppend(before, r.text, parse);
      CompleteAppend(before, r.text, "\n");
      FreeChar(rest, '\n');
      buffer := rest;
    }
  }
}
