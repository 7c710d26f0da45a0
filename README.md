# Streaming chat relay, modelled in Dafny

This project models the core of a small chat application in which a web page
talks to a local language model through a relay server.

- **The relay endpoint `POST /api/chat/stream`** is in `server/server.js`. It does the following:
  - It validates the request's `messages` field and filters the history to `user`/`assistant` entries with string content.
  - It puts a fixed system instruction in front and sends the request upstream.
  - It reads the upstream body, which is line-delimited JSON (NDJSON), chunk by chunk, keeping the unterminated line in a buffer.
  - For every complete line it writes Server-Sent Events frames: `event: delta` for non-empty content, `event: done` for the completion flag, and one `event: error` for any exception.
- **The page's turn controller `sendMessage`** is in `client/src/App.jsx`. It does the following:
  - It guards against blank input and against a turn already in flight.
  - It appends the user message and an empty assistant placeholder in one update, and posts the `user`/`assistant` history.
  - It reads the event stream chunk by chunk and re-frames it on blank lines.
  - For each complete event it extracts the `event:` and `data:` lines and dispatches `delta` and `error` to the last assistant message.
  - It annotates any thrown error as a warning and always lowers the streaming flag.
  - `clearChat` is modelled alongside it.

The wire format is the Server-Sent Events framing of section 9.2 of the WHATWG
HTML Living Standard, in the subset this code uses: one `event:` line, one
`data:` line, and a blank line after each event.

Modules:

| module | file | contents |
|---|---|---|
| `Wrappers` | wrappers.dfy | `Option` |
| `Strings` | strings.dfy | JavaScript `split`/`join` (non-empty separator), `trim` (ECMAScript white space), `startsWith`, `replace` with a string pattern; the incremental splitter `Reframe` and its chunk-boundary lemmas |
| `Json` | json.dfy | `JSON.stringify` of a string (escaping per ECMA-262 `QuoteJSONString`) and its inverse, proved as a round trip |
| `Messages` | messages.dfy | roles and messages |
| `Streams` | streams.dfy | the outcome of `fetch` (`Reply`) and a body reader (`ChunkReader`, a class over already-decoded chunks) |
| `Sse` | sse.dfy | the three events and their exact wire text; splitting the text on blank lines recovers every event |
| `Relay` | relay.dfy | the server handler as functions: filter, upstream request, line-to-event mapping, all events of a reply |
| `RelayHandler` | relay_handler.dfy | the handler as the source writes it: a `Response` class receiving writes, the read loop and the line loop as methods proved against `Relay` |
| `ChatClient` | chat_client.dfy | the page state as a `Chat` class, `sendMessage` and its loops as methods, the updaters and the event parser as functions |
| `Pipeline` | pipeline.dfy | end to end: the page's history passes the server's filter unchanged; the page renders exactly what the server's events carry, however the stream is cut |

Two behaviours of the page are worth stating plainly:
- **An `error` event does not end the turn.** The page keeps reading after an `error` event, so later `delta` events are still appended after the warning.
- **No title.** The page derives no conversation title at the end of a turn, so the model has none.

## Model

| member | source | states |
|---|---|---|
| Relay.ModelName | server/server.js:85 | the model is the configured name when it is a non-empty string, and exactly `llama3.2:3b` when it is absent or empty; never empty |
| Relay.ChatRoleNamed | server/server.js:68 | a role is accepted exactly when it is `user` or `assistant`, and it keeps its name |
| Relay.Kept | server/server.js:65-70 | an entry is kept exactly when it is truthy, its role is `user` or `assistant` and its content is a string; its role and content are then unchanged |
| Relay.SafeMessages | server/server.js:65-70 | the filtered history is never longer than the input and holds only `user`/`assistant` messages |
| Relay.SafeMessagesAppend | server/server.js:65-70 | filtering a concatenation concatenates the filtered parts, so the filter keeps the order of the entries it accepts |
| Relay.SafeMessagesOne | server/server.js:65-70 | a single entry gives its kept message, or nothing when the filter rejects it |
| Relay.DroppedEntry | server/server.js:65-70 | a rejected entry contributes nothing, wherever it stands |
| Relay.KeptEntry | server/server.js:65-70 | an accepted entry contributes its message exactly where it stands, between the messages of the entries before and after it |
| Relay.RecordEvents | server/server.js:140-150 | a record gives a `delta` carrying its content exactly when the content is a non-empty string, and a `done` exactly when its flag is set; the `delta` comes first and no `error` appears |
| Relay.LineEvents | server/server.js:128-150 | a blank or white-space-only line, and a line that does not parse, give no events; any other line gives its record's events |
| Relay.LinesEvents | server/server.js:128-151 | the line loop never produces an `error` event |
| Relay.LinesEventsAppend | server/server.js:128-151 | the events of consecutive lines are the events of each line, in order |
| Relay.MalformedLineSkipped | server/server.js:131-137 | a line that fails to parse, between any other lines, is skipped without affecting the events of the others |
| Relay.StreamEvents | server/server.js:118-152 | the events of the text received so far are those of its complete lines (with `StreamEventsAppend` and `UnterminatedTailSilent`), and none of them is an `error` |
| Relay.StreamEventsAppend | server/server.js:118-128 | receiving one more chunk emits exactly the events of the lines it completes, so the events do not depend on where the text was cut |
| Relay.UnterminatedTailSilent | server/server.js:125-126 | a trailing line without a line feed never produces an event |
| Relay.ServerEvents | server/server.js:107-162 | a rejected fetch writes exactly one `error` with its message; a reply that is not `ok` or has no body writes exactly the fixed `Ollama no respondió` error. A stream writes the events of its complete lines first, then, after a failed read, one `error` with the read's message as the last event. At most one `error` is written, it is the last, and the response ends with one exactly when the fetch failed, there was no body, or a read failed |
| RelayHandler.Response.Emit | server/server.js:142-143 | one event is the two writes `event: <name>\n` and `data: <json>\n\n`, appended to what was written before |
| RelayHandler.Response.End | server/server.js:155 | `res.end()` ends the response and writes nothing |
| RelayHandler.Handle | server/server.js:48-163 | without a `messages` array there is exactly one `error` event with the fixed message and no upstream request. Otherwise the upstream request is the system instruction followed by the filtered history, with streaming on, and the events written are exactly `ServerEvents`. The response is always ended, and what is written is the wire text of those events |
| RelayHandler.ReadLoop | server/server.js:113-152 | the read loop keeps the unterminated line in `buffer` (no line feed in it, always the pending piece of the text so far). It writes exactly the events of every complete line of the whole text and reports a failed read's message |
| RelayHandler.EmitLines | server/server.js:128-151 | the line loop writes the events of each line, in order |
| RelayHandler.EmitLine | server/server.js:128-150 | one line's body: blank and unparsable lines write nothing, others write their record's events |
| RelayHandler.EmitRecord | server/server.js:140-150 | writes `delta` when the content is a non-empty string, then `done` when the flag is set |
| Streams.ChunkReader.Read | server/server.js:119-120 | `reader.read()` delivers the chunks in order, then ends or fails |
| Strings.SplitPieces | server/server.js:125 | no piece of a split holds the separator, and the pieces joined by the separator give the text back |
| Strings.Reframe | server/server.js:122-126 | after a chunk the retained buffer holds no separator, nor does any complete piece; the pieces and the buffer, joined by the separator, are the old buffer plus the chunk |
| Strings.CompleteAppend | client/src/App.jsx:106-110 | the complete pieces of `x + c` are those of `x` followed by those completed once the pending piece of `x` is extended by `c` |
| Strings.CompleteUnterminated | client/src/App.jsx:109-110 | text that adds no separator completes no piece and only extends the pending one |
| Strings.TrimEmptyIff | server/server.js:129 | `!line.trim()` holds exactly for lines made only of white space |
| Strings.RemoveFirstPrefix | client/src/App.jsx:117-118 | `replace(marker, "")` on a line starting with the marker removes exactly that prefix |
| Strings.TrimAfterWhite | client/src/App.jsx:117-118 | trimming white space followed by a value that neither starts nor ends with white space gives the value |
| Json.Quote | server/server.js:143 | `JSON.stringify` of a string is quoted and contains no control character, so no raw line feed |
| Json.UnquoteQuote | server/server.js:143 | decoding a stringified string gives the string back |
| Sse.Payload | server/server.js:142-160 | each event's payload is a JSON object text without control characters |
| Sse.SplitText | client/src/App.jsx:109-110 | splitting the server's event text on blank lines recovers every event, in order, with nothing pending |
| ChatClient.ChatHistory | client/src/App.jsx:46-48 | the history holds only `user`/`assistant` messages and is never longer than the list |
| ChatClient.ChatHistoryAppend | client/src/App.jsx:46-48 | the history filter works message by message and keeps the order |
| ChatClient.ChatHistoryOnlyChat | client/src/App.jsx:46-48 | a list of `user`/`assistant` messages is its own history |
| ChatClient.AppendAssistantSpec | client/src/App.jsx:90-99 | the length is kept. With an assistant message last, every other message is kept and the last one's content becomes `content + d`. Otherwise nothing changes |
| ChatClient.SettleKeepsStreamed | client/src/App.jsx:139-148 | the `catch` updater keeps the length and every earlier message; with an assistant message last, its content becomes what was streamed followed by the warning with the error's message; otherwise, or without an error, nothing changes |
| ChatClient.AppendAssistantTwice | client/src/App.jsx:90-99 | two appends are one append of both texts |
| ChatClient.FirstStarting | client/src/App.jsx:114-115 | `find` returns the first line starting with the marker, or none when no line does |
| ChatClient.Field | client/src/App.jsx:117-118 | the field is the first marked line without its marker, trimmed, or the default (`""` or `"{}"`) when no line is marked |
| ChatClient.ParseFrameName | client/src/App.jsx:113-117 | the event name is the first line starting with `event:`, without the marker and trimmed, and `""` when no line starts with `event:` |
| ChatClient.ParseFrameData | client/src/App.jsx:113-118 | the payload is the first line starting with `data:`, without the marker and trimmed, and `"{}"` when no line starts with `data:` |
| ChatClient.DecodeCatch | client/src/App.jsx:120-125 | a payload that does not parse is read as `{}` (no properties); one that parses is read as its value |
| ChatClient.Or | client/src/App.jsx:128 | a property read with a fallback gives the property when it is a non-empty string, and exactly the fallback when it is absent or empty; never empty when the fallback is not |
| ChatClient.Dispatch | client/src/App.jsx:120-137 | `done` and unknown names do nothing. An unparsable payload counts as `{}`, so `delta` appends `""` and `error` appends the `Error desconocido` warning. A throw happens exactly for a `null` payload under `delta` or `error` |
| ChatClient.DispatchParsed | client/src/App.jsx:120-133 | for a payload that parses to an object, `delta` appends its `delta` property or `""`, and `error` appends the warning with its `error` property or `Error desconocido` |
| ChatClient.Step | client/src/App.jsx:112-139 | once an event has thrown, a later event changes nothing, because the throw leaves the loop |
| ChatClient.ApplyFramesSnoc | client/src/App.jsx:112-137 | the event loop applies the events one after another, in order: the first `i + 1` events are the first `i` followed by event `i` |
| ChatClient.ApplyFramesAppend | client/src/App.jsx:112-137 | applying the events of two groups one after the other is applying them all, so grouping into chunks does not matter |
| ChatClient.ApplyFramesThrown | client/src/App.jsx:139-148 | once an event throws, no later event changes anything |
| ChatClient.ApplyFramesShape | client/src/App.jsx:112-137 | events change at most the content of the last message |
| ChatClient.ChunkStep | client/src/App.jsx:106-112 | one more chunk applies, after the earlier events, exactly the events completed in the pending text extended by that chunk |
| ChatClient.FramesStopped | client/src/App.jsx:112-137 | stopping the event loop at a throw gives the outcome of all the events |
| ChatClient.ThrownEarly | client/src/App.jsx:102-139 | an error thrown by an event in the first chunks is the outcome of the whole stream |
| ChatClient.UnterminatedEventIgnored | client/src/App.jsx:109-110 | text that completes no event changes nothing, however the stream is cut |
| ChatClient.Streaming | client/src/App.jsx:66-138 | a rejected `fetch` throws its message and a reply that is not `ok` or has no body throws the fixed message, with the list untouched; a failed read always ends in the `catch`; the `try` finishes without an error only for a stream whose reads all succeed |
| ChatClient.TurnOutcomes | client/src/App.jsx:66-151 | a turn that never reaches the stream ends with the warning appended to the last assistant message; a turn whose events and reads all succeed ends with exactly what its events appended |
| ChatClient.TurnShape | client/src/App.jsx:66-151 | a turn changes at most the content of the last message |
| ChatClient.SendShape | client/src/App.jsx:57-64 | after an accepted send the list has grown by two, with the earlier messages and the user message unchanged and an assistant message last |
| ChatClient.Chat.constructor | client/src/App.jsx:25-33 | the greeting alone, an empty input, no turn running |
| ChatClient.Chat.SetInput | client/src/App.jsx:214 | sets the input only |
| ChatClient.Chat.ClearChat | client/src/App.jsx:167-170 | during a turn nothing changes; otherwise the list is the single "chat cleared" assistant message |
| ChatClient.Chat.SendMessage | client/src/App.jsx:54-152 | with a blank input or a turn in flight, nothing changes and nothing is sent. Otherwise the posted history is the earlier `user`/`assistant` messages plus the trimmed user message, and the list grows by exactly two (earlier messages and the user message unchanged, assistant last) and ends as `TurnMessages` says. The input is cleared and the flag is down |
| ChatClient.Chat.StartTurn | client/src/App.jsx:59-64 | clears the input, raises the flag and appends the user message and the empty placeholder in one update |
| ChatClient.Chat.RunTurn | client/src/App.jsx:66-151 | the list ends as `TurnMessages` says (a thrown error appended as a warning after what was streamed) and the flag is always lowered |
| ChatClient.Chat.ReadStream | client/src/App.jsx:102-138 | the read loop keeps the pending event in `buffer` and applies exactly the complete events of the whole text, up to the first that throws; a failed read then throws |
| ChatClient.Chat.ApplyChunk | client/src/App.jsx:106-110 | the new buffer is the pending piece and holds no blank line; the complete events are applied |
| ChatClient.Chat.ApplyEvents | client/src/App.jsx:112-137 | the event loop applies the events in order, stopping at the first throw |
| ChatClient.Chat.ApplyEvent | client/src/App.jsx:113-137 | one event is parsed and dispatched |
| ChatClient.Chat.ApplyEffect | client/src/App.jsx:127-133 | an append goes through `appendAssistant`; a throw leaves the list |
| Pipeline.HistoryAccepted | server/server.js:65-70 | the server keeps every message of a `user`/`assistant` history, unchanged and in order |
| Pipeline.OutgoingForwarded | client/src/App.jsx:68 | what the page posts on a send is exactly what the server forwards after its system instruction |
| Pipeline.ParseBlock | client/src/App.jsx:113-118 | the page reads back the name and payload of every event the server writes |
| Pipeline.DispatchShown | client/src/App.jsx:127-133 | a server event, decoded, appends what it shows (`done` appends nothing) |
| Pipeline.FramesApply | client/src/App.jsx:112-137 | frames that read back as the server's events append the text those events show, in order, and throw nothing |
| Pipeline.ServerToClient | client/src/App.jsx:102-138 | whatever chunks the server's text arrives in, the page appends exactly the text of its events, then the warning of a failed read |
| Pipeline.SplitDeltaExample | client/src/App.jsx:106-110 | the `delta` event for `Hi`, cut into `event: delta\ndata: {"del` and `ta":"Hi"}\n\n`, appends exactly `Hi` |
| Pipeline.UpstreamExample | server/server.js:118-150 | two upstream records (content `A`, then content `B` with the flag), cut anywhere, give exactly `delta A`, `delta B`, `done` |

## Left out

- `JSON.parse` is a parameter of the model: on the server, a line parser giving the record or failing; on the page, a payload parser giving `null`, an object, or failing. Every property holds for every such parser. The end-to-end lemmas assume only that the page's parser reads back the three payload shapes the server writes.
- `JSON.stringify` is modelled only for the string values the server quotes. Object framing is written out as text.
- ChatClient.Dispatch: `delta` and `error` properties that are present but not strings (numbers, objects, `true`) are not modelled; such a payload is read as absent properties. A parsed value that is neither `null` nor an object is not modelled either.
- Relay.Kept: a `role` or `content` that is not a string is modelled only as "not a string". Its JavaScript value is not modelled.
- Relay.UpstreamRecord keeps `message.content` only when it is a string. A truthy content that is not a string (a number, an object, `true`) passes the check at server/server.js:140 and is written as that JSON value in `{"delta": ...}`; the model reads such a record as having no content, so it writes no `delta` for it.
- Json.UnquoteQuote: the decoder rejects `\u` escapes of surrogate halves, since a `char` cannot hold one. The round trip is unaffected, because `JSON.stringify` never produces them for a string of `char`s.
- A request body that is absent altogether makes the destructuring at server/server.js:55 throw, and a different `error` frame follows. The model only knows a `messages` field that is missing, not an array, or an array.
- `fetch` is left out on both sides: its outcome is the `Reply` parameter, and the network request is the returned `ChatRequest` or history. The upstream URL and the request headers are not modelled.
- `TextDecoder` is left out: chunks are already-decoded text. The decoder's end-of-stream flush, which the source never calls, is not modelled.
- Express setup, CORS, `express.json`, `/health`, `app.listen` and the response headers are HTTP plumbing and are left out.
- React rendering, auto-scroll, key handling and styles are left out. The `setMessages` updaters are applied in order to the latest list, which is the order the source issues them.
- RelayHandler.Response.Emit: the two `res.write` calls of one event are one step. Nothing runs between them.
- ChatClient.Chat.SendMessage runs a whole turn inside one call, so nothing else happens at the `await reader.read()` points (client/src/App.jsx:103): no `clearChat`, no second send and no input change can interleave with the stream. The `isStreaming` guards (client/src/App.jsx:55, 168) are therefore reached only by a caller that raises the flag with `StartTurn` alone. React's event loop and the scheduling of the `await`s are not modelled.
- The page's `finally` is modelled as lowering the flag after the `try`/`catch`, because the `catch` itself never throws.
- The `disabled` attributes of the buttons are a rendering concern. `sendMessage` and `clearChat` check the same conditions themselves, and those checks are modelled.
