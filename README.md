# EComm Gemini Live — session bridge model

A Dafny model of the server-side core of an e-commerce shopping assistant.
The server bridges browser clients (over Socket.IO) to Google's Gemini models.
The model covers four parts:

- **Live session service** (`server/gemini_live_service.py`):
  - a registry of sessions, each with an inbound message queue and a response slot;
  - a background task that drains the queue in FIFO order and runs one *turn* per message;
  - the turn itself: send the input, read the model's stream, execute the first tool call, emit text chunks and completions, speak the reply.
- **Live2 session service** (`server/gemini_live2_service.py`): a registry of audio/video sessions whose `active` flag gates the media handlers.
- **Multimodal helpers** (`server/gemini_multimodal_service.py`): history formatting, search-result shaping, and the two content-generation entry points with their history seeding.
- **Product normaliser** (`server/utils.py`): fills every product up to the same six keys.

The outside world is given to the model as inputs:

- what the remote model streams back for a message, as a finite sequence of frames (text, tool call, end of turn);
- the search endpoint's reply;
- whether a base64 payload decodes (for a video frame sent with a message, also whether the multipart send succeeds);
- how far the text-to-speech set-up in the live service's constructor got;
- the synthesised speech bytes;
- the random price draws.

Everything the live service emits to Socket.IO rooms goes to an append-only event log. Everything it sends to the remote model goes to a second log.

Files:

- `PyValues.dfy`: Python values (str/int/None), truthiness, `dict.get`, `or`, `str()`, `str.strip`, splitting on a character.
- `Products.dfy`: `normalize_product`.
- `Live2.dfy`: the Live2 registry as a class over a map.
- `Multimodal.dfy`: the multimodal helpers, as loop methods proved against specification functions.
- `LiveTurn.dfy`: one message's turn: data-URL parsing, tool execution, the receive loop, text-to-speech chunking, and the completion guard.
- `LiveService.dfy`: the live registry as a class, the queue drain and its lemmas.

## Model

| member | source | states |
|---|---|---|
| PyValues.NatToString | server/utils.py:8 | `str()` of a natural number is a non-empty string of decimal digits whose decimal value is the number; it starts with '0' only for zero |
| PyValues.TrimStartKeepsSuffix | server/gemini_live_service.py:225 | `lstrip` keeps a suffix of the text, everything cut is whitespace, and the result does not start with whitespace |
| PyValues.TrimEndKeepsPrefix | server/gemini_live_service.py:225 | `rstrip` keeps a prefix of the text, everything cut is whitespace, and the result does not end with whitespace |
| PyValues.StripBounds | server/gemini_live_service.py:225 | `strip()` returns the slice between two cut points, with only whitespace before the first and after the second |
| PyValues.StripIsTrimmedMiddle | server/gemini_live_service.py:225 | `strip()` keeps a contiguous middle of the text; everything before and after it is whitespace; the kept part neither starts nor ends with whitespace |
| PyValues.StripEmptyIffAllSpace | server/gemini_live_service.py:225-226 | the stripped text is empty exactly when the whole text is whitespace |
| PyValues.StripUnpadded | server/gemini_live_service.py:225 | text without leading or trailing whitespace is unchanged by `strip()` |
| PyValues.Find | server/gemini_live_service.py:158 | index of the first occurrence of a character: None exactly when absent, otherwise a position holding it with no earlier occurrence |
| PyValues.Before | server/gemini_live_service.py:158-159 | the text before the first separator: a prefix of the input that does not contain the separator; the whole input when the separator is absent, otherwise the separator sits right after the result |
| PyValues.PrefixKeepsAbsent | server/gemini_live_service.py:158-159 | a prefix of a text without a character does not contain it either |
| PyValues.After | server/gemini_live_service.py:158 | when the separator occurs, the input is the text before it, the separator, then the result |
| Products.PriceText | server/utils.py:10 | the default price text is "$", the decimal digits of the whole dollars (no leading zero), ".", and two digits whose value is the cents |
| Products.TwoDigitsValue | server/utils.py:10 | the two cent digits of a value below 100 denote that value |
| Products.NormalizeProduct | server/utils.py:3-12 | the output has exactly the six keys; id is a truthy `id`, else `productid`, else `''`; present fields are copied unchanged; absent ones get the empty image url, `"Product <id>"` with id looked up by presence, the query-based description (using "image" for a falsy query), the drawn price, and aisle "Unknown" |
| Products.EmptyIdNamesProductWithEmptySuffix | server/utils.py:6-8 | a present empty `id` gives the name "Product " while the id falls back to `productid` |
| Products.NormalizeIdempotent | server/utils.py:3-12 | normalising a normalised product returns it unchanged, for any second query and price draw, when the id keys hold strings |
| Products.NormalizeNotIdempotentForIntegerId | server/utils.py:6 | with an integer `productid` of 0, a second normalisation changes the id to `''` |
| Live2.ActiveIds | server/gemini_live2_service.py:214-218 | the active ids are a subset of the registered ids |
| Live2.Live2Service.constructor | server/gemini_live2_service.py:22-30 | the registry starts empty |
| Live2.Live2Service.CreateSession | server/gemini_live2_service.py:32-43 | exactly one entry is installed, active, with empty audio, an out queue bounded at 10 and no emitter, room or stream task; other entries are unchanged |
| Live2.Live2Service.SetSocketio | server/gemini_live2_service.py:45-48 | a known session gets the emitter and room; an unknown id changes nothing |
| Live2.Live2Service.HandleAudioChunk | server/gemini_live2_service.py:138-158 | an unknown or ended session gets "Invalid session" and nothing changes; an active one gets exactly the chunk appended to its audio and "audio chunk received" |
| Live2.Live2Service.HandleVideoFrame | server/gemini_live2_service.py:160-185 | refused with "Invalid session" exactly when the session is unknown or ended; otherwise "video frame sent" |
| Live2.Live2Service.EndSession | server/gemini_live2_service.py:201-209 | True exactly for a known id, whose entry stays with `active` cleared; nothing else changes |
| Live2.Live2Service.GetStatus | server/gemini_live2_service.py:212-220 | the listed ids are exactly those accepted by the media handlers; the total counts every entry |
| Live2.Live2Service.Reset | server/gemini_live2_service.py:223-228 | the registry becomes empty |
| Live2.EndedStatus | server/gemini_live2_service.py:201-220 | ending keeps every entry and the total, and removes exactly that id from the active ids |
| Live2.EndedRefusesMedia | server/gemini_live2_service.py:138-209 | after `end_session` both media handlers refuse the session, which is still registered |
| Live2.EndedIdempotent | server/gemini_live2_service.py:201-209 | a second `end_session` changes nothing and still finds the id |
| Live2.CreatedStatus | server/gemini_live2_service.py:32-43 | creating a fresh id adds it to the active ids and one to the total, leaving other entries unchanged |
| Live2.AudioKeepsStatus | server/gemini_live2_service.py:143-158 | an accepted chunk changes only that session's audio list, not the status summary or any other entry |
| Multimodal.FormatHistory | server/gemini_multimodal_service.py:68-81 | the loop builds the specified list; its length is the number of user/assistant entries, never more than the input; every role is "user" or "model" |
| Multimodal.FormatHistoryAppend | server/gemini_multimodal_service.py:72-79 | formatting distributes over concatenation, so relative order is preserved |
| Multimodal.FormatHistorySingle | server/gemini_multimodal_service.py:72-79 | "user" stays "user" and "assistant" becomes "model", with the content as text; any other role is dropped |
| Multimodal.FormatHistoryCount | server/gemini_multimodal_service.py:72-79 | the formatted history has one entry per user/assistant entry |
| Multimodal.ExtractQuery | server/gemini_multimodal_service.py:90-103 | a mapping gives its "query" value, `''` when absent; a decodable JSON string gives its query (default `''`); an undecodable string is used verbatim |
| Multimodal.ProjectAll | server/gemini_multimodal_service.py:116-125 | each result is projected to id, name, price, image_url and aisle, in order |
| Multimodal.ProcessFunctionCall | server/gemini_multimodal_service.py:83-142 | an unknown name gives "Unsupported function"; a search gives the first at most 5 results in order, each projected; `[]` without a `results` key; the exception's message when the request raises |
| Multimodal.ChatHistorySeeded | server/gemini_multimodal_service.py:150-157 | with no surviving history entry the chat starts with exactly the instructions as a user message and the fixed acknowledgement from the model; otherwise it is the formatted history |
| Multimodal.CollectReply | server/gemini_multimodal_service.py:171-191 | the loop over the reply's parts computes the specified accumulation |
| Multimodal.AccumulatedKeepsError | server/gemini_multimodal_service.py:171-198 | once a follow-up raises, the whole call ends in that error |
| Multimodal.AccumulatedConcat | server/gemini_multimodal_service.py:171-191 | the accumulation over a concatenation of parts is the combination of the two accumulations: texts and function results appended in reply order, an error in either half winning |
| Multimodal.GenerateContent | server/gemini_multimodal_service.py:144-199 | the chat is started with the seeded or formatted history and the message; the result is the accumulated reply, or the error when the model call raises |
| Multimodal.ImagePayload | server/gemini_multimodal_service.py:210-212 | data starting with "data:image" is replaced by its second comma-separated field: none without a comma, the whole rest after one comma, the text up to the next comma otherwise; other data is kept |
| Multimodal.GenerateContentWithImage | server/gemini_multimodal_service.py:201-270 | a data URL without a comma ends in the index error and an undecodable payload in the decode error, both before any model call; otherwise the request has the seeded history and the payload, and the result is as for text |
| LiveTurn.CompletionsAppend | server/gemini_live_service.py:209-248 | the completion count of a concatenation is the sum of the counts |
| LiveTurn.ExecuteFunction | server/gemini_live_service.py:313-345 | "Unknown function: name" for any name but search_products; "No query provided" for a falsy query; the search data exactly when the query is truthy and the status is 200; otherwise "Search failed with status <status>: <body>" or "Error executing search: <message>" |
| LiveTurn.MimeOf | server/gemini_live_service.py:159 | "image/jpeg" unless the header has both ':' and ';'; then the longest prefix of the text after the first ':' free of ':' and ';' |
| LiveTurn.ParseDataUrl | server/gemini_live_service.py:156-160 | fails exactly when there is no comma; otherwise the input is the header before the first comma, a comma, then the payload, and the mime type is read from that header |
| LiveTurn.SplitAtFirst | server/gemini_live_service.py:158 | splitting `a + c + b` at the first `c` (absent from `a`) gives back `a` and `b` |
| LiveTurn.MimeOfWellFormedHeader | server/gemini_live_service.py:159 | the header "data:<mime>;base64" yields its mime type |
| LiveTurn.MimeBetween | server/gemini_live_service.py:159 | any header `<pre>:<mime>;<rest>` with no ':' before the first and none in the mime type yields that mime type |
| LiveTurn.ParseDataUrlRoundTrip | server/gemini_live_service.py:156-160 | "data:<mime>;base64,<payload>" parses back to that mime type and payload, for any payload |
| LiveTurn.StopIndex | server/gemini_live_service.py:178-237 | the loop stops at the first frame carrying a tool call or the end-of-turn mark, reading no frame after it |
| LiveTurn.ToolStep | server/gemini_live_service.py:189-221 | the loop's events before the tool branch are kept as a prefix |
| LiveTurn.EndOfTurnStep | server/gemini_live_service.py:222-237 | the loop's events before the end-of-turn branch are kept as a prefix |
| LiveTurn.ToolBranch | server/gemini_live_service.py:189-221 | the tool branch: execute the first call; for a search with results, show them, mark the result shown and send the fallback completion if none was sent; crash without an emitter; answer the call |
| LiveTurn.EndOfTurnBranch | server/gemini_live_service.py:222-237 | the end-of-turn branch: stripped text or fallback, flag clearing, unguarded completion |
| LiveTurn.ReceiveResponses | server/gemini_live_service.py:175-237 | the frame-by-frame loop computes the specified receive step |
| LiveTurn.ChunksShape | server/gemini_live_service.py:674-681 | the chunks carry the whole audio in order; each is non-empty and at most 4096 bytes; all but the last are exactly 4096; there are ⌈n/4096⌉ of them |
| LiveTurn.StreamTtsAudio | server/gemini_live_service.py:664-684 | nothing without a TTS client, for empty text or when synthesis fails; otherwise chunks whose bytes concatenate to the audio, then exactly one end marker |
| LiveTurn.RunTurn | server/gemini_live_service.py:175-249 | the turn as run: the receive loop, the guarded post-loop completion with speech, then the flag reset |
| LiveTurn.PostLoopCompletions | server/gemini_live_service.py:239-244 | the post-loop check sends one completion exactly when there is an emitter and the flag is clear |
| LiveTurn.ToolStepCompletions | server/gemini_live_service.py:197-215 | the tool branch sends a completion exactly when it sets a clear flag; it never clears the flag, and without an emitter never sets it |
| LiveTurn.EndOfTurnStepCompletions | server/gemini_live_service.py:222-237 | as written, the end-of-turn branch sends one completion whenever there is an emitter and leaves the flag alone; corrected, it sends one exactly when it sets a clear flag |
| LiveTurn.ReceiveDoesNotCrash | server/gemini_live_service.py:197-215 | the receive loop can crash only on a session without an emitter, and never under the corrected policy |
| LiveTurn.ReceiveCompletions | server/gemini_live_service.py:177-237 | the receive loop's own completion count on each ending |
| LiveTurn.AsWrittenCompletionCount | server/gemini_live_service.py:209-248 | with an emitter: the two guarded sites together send exactly one completion when the flag starts clear and none when it starts set; the unguarded end-of-turn site adds one; the turn does not crash; the flag is clear afterwards |
| LiveTurn.CorrectedCompletesAtMostOnce | server/gemini_live_service.py:209-248 | with the guard applied to every site, a turn never crashes and sends at most one completion: exactly one with an emitter and a clear flag |
| LiveTurn.EndOfTurnEmitsTwoCompletions | server/gemini_live_service.py:229-244 | a text frame (any text without surrounding whitespace, e.g. "Hi") followed by end of turn produces the chunk and two identical completions |
| LiveTurn.GreetingReceive | server/gemini_live_service.py:177-237 | the receive loop on that stream ends at end of turn with the chunk and one completion |
| LiveTurn.GreetingReachesEndOfTurn | server/gemini_live_service.py:177-237 | that stream reaches the end-of-turn branch with the frame's text accumulated and its one chunk |
| LiveTurn.EndOfTurnUnpadded | server/gemini_live_service.py:224-237 | unpadded non-empty text is sent as the end-of-turn completion unchanged |
| LiveTurn.SearchWithoutEmitterCrashes | server/gemini_live_service.py:197-215 | a search with results on a session without an emitter crashes the turn before the tool response is sent |
| LiveTurn.SearchWithoutEmitterCorrected | server/gemini_live_service.py:197-221 | with the fix the same stream answers the call and the turn ends normally |
| LiveTurn.SearchScenario | server/gemini_live_service.py:189-221 | a search returning two products emits the function result with both normalised, then one "Here you go!" completion, and sends the search data back to the model |
| LiveTurn.DeltasCarryTexts | server/gemini_live_service.py:179-188 | the chunk events carry exactly the frames' texts, in arrival order |
| LiveTurn.ReceiveAccumulates | server/gemini_live_service.py:175-188 | the accumulated text is the text of the frames read; with an emitter the loop's events begin with chunks carrying exactly that text |
| LiveTurn.OnlyFirstCallExecuted | server/gemini_live_service.py:190-221 | a loop ending at a tool call sends exactly one tool response, for the frame's first call; other endings send nothing |
| LiveTurn.EndOfTurnText | server/gemini_live_service.py:222-237 | the end-of-turn completion is the stripped text, or "Here you go!" only when that is empty and a result was shown, in which case the flag is cleared |
| LiveService.RequestOf | server/gemini_live_service.py:148-174 | a bare text or image part is sent as is; a pair without a frame sends its text; the frame-error path is taken exactly when a non-empty frame has no comma or does not decode; any other framed pair sends its text with the mime type and payload `ParseDataUrl` reads from the frame |
| LiveService.FramedMessageSent | server/gemini_live_service.py:156-162 | a message with a well-formed frame goes out as text plus the image with the frame's mime type and payload |
| LiveService.Step | server/gemini_live_service.py:144-251 | one message leaves the queue alone and only appends to both logs |
| LiveService.Respond | server/gemini_live_service.py:162-251 | writing a turn's outcome back leaves the queue alone and only appends to both logs |
| LiveService.Stop | server/gemini_live_service.py:140-260 | a dequeued sentinel finishes the task with `connected` and `task` cleared, and emits or sends nothing |
| LiveService.ProcessMessage | server/gemini_live_service.py:144-251 | the loop body computes the specified step |
| LiveService.DrainAppendsOnly | server/gemini_live_service.py:138-251 | draining only appends to what was emitted and sent |
| LiveService.StepAppendsTagged | server/gemini_live_service.py:144-251 | one message keeps the session's room; every event it emits goes to that room and every message it sends is tagged with the session's id |
| LiveService.AddedTaggedTransitive | server/gemini_live_service.py:138-251 | emitting only to the room and sending only under the id is preserved across successive appends |
| LiveService.DrainTagged | server/gemini_live_service.py:138-251 | the task keeps the session's room; every event it emits goes to that room (none without one) and every message it sends carries the session's id |
| LiveService.DrainLeavesSuffix | server/gemini_live_service.py:138-143 | the task takes items from the front of the queue only: what stays queued is a suffix |
| LiveService.DrainSendsHeadFirst | server/gemini_live_service.py:138-174 | FIFO: the first thing sent is the input of the message at the head of the queue |
| LiveService.DrainConcat | server/gemini_live_service.py:138-174 | FIFO: with no sentinel in `q1` and an answer per message, draining `q1 + q2` drains `q1` first, then `q2` from that state, and anything left of `q1` stays queued ahead of `q2` |
| LiveService.DrainIgnoresAfterTerminate | server/gemini_live_service.py:138-153 | draining `q1 + [None] + q2` does exactly what draining `q1 + [None]` does and leaves `q2` queued; the same holds for a pair with no message |
| LiveService.DrainReachesTerminate | server/gemini_live_service.py:138-260 | with an answer for every message ahead of it, a queued sentinel ends the task: it finishes with `connected` and `task` cleared, leaving nothing queued when no other terminating item comes first, or it failed earlier with `connected` cleared |
| LiveService.ClearedProperties | server/gemini_live_service.py:353-364 | clearing resets only a done slot, marking it retrieved; it is idempotent and keeps the keys |
| LiveService.LiveService.constructor | server/gemini_live_service.py:37-104 | both maps and both logs start empty; there is a TTS client only when its whole set-up succeeded, and `session_responses` exists unless the set-up failed before assigning it |
| LiveService.LiveService.ResponsesFirst | server/gemini_live_service.py:58-86 | corrected set-up: the response map exists whatever the text-to-speech set-up does; only the TTS client depends on it |
| LiveService.LiveService.CreateSession | server/gemini_live_service.py:267-311 | with the response map, exactly one entry is installed: unconnected, empty queue and history, task handle set; its slot is `{text: "", done: False, audio: None}`, and the id is returned. Without it, the entry is installed with no task and the call raises; nothing else changes |
| LiveService.LiveService.Connect | server/gemini_live_service.py:128-137 | the task's connection attempt marks the session connected, or leaves it registered but unconnected |
| LiveService.LiveService.ProcessUserMessage | server/gemini_live_service.py:380-399 | an unknown id gets "Session not found" and nothing is queued; otherwise exactly the text is appended to that session's queue |
| LiveService.LiveService.ProcessUserMessageSocketio | server/gemini_live_service.py:401-427 | unknown and unconnected sessions get an error event in the client's room and nothing is queued; otherwise the room is recorded and exactly the (message, frame) pair is appended |
| LiveService.LiveService.HandleVideoFrame | server/gemini_live_service.py:644-662 | a known session with a parsable, decodable data URL gets exactly the image part queued; every other case changes nothing |
| LiveService.LiveService.ServeQueue | server/gemini_live_service.py:138-260 | the background task serves the queue as the drain specifies and writes back the record with what is still queued, the slot and both logs; nothing happens unless it is running |
| LiveService.LiveService.EndSession | server/gemini_live_service.py:429-474 | an unknown id changes nothing; a known one gets the sentinel queued, the task serves its queue, and both entries are removed, so a second call is a no-op; it raises exactly for a known id when the response map was never assigned |
| LiveService.LiveService.CurrentResponse | server/gemini_live_service.py:347-351 | raises exactly when the response map was never assigned; otherwise the slot of a known session, none otherwise, and in a valid registry that is exactly when the session is active |
| LiveService.LiveService.ClearResponse | server/gemini_live_service.py:353-364 | raises exactly when the response map was never assigned; otherwise the slot is reset to the cleared record exactly when it is done |
| LiveService.TtsFailureStrandsSession | server/gemini_live_service.py:58-83 | with the TTS client failing at construction, `create_session` raises and leaves an entry with no task and no connection |
| LiveService.TtsFailureCorrected | server/gemini_live_service.py:58-83 | with the response map assigned first, the same failure creates the session with its task started and only loses speech |

## Left out

- Concurrency: the background task, the senders and `end_session` run interleaved in the source. Here each is an explicit call that runs to completion. Queue puts are immediate, including `call_soon_threadsafe` in `handle_video_frame`.
- LiveService.LiveService.EndSession: the five-second `wait_for` and the cancellation are not modelled. The drain stops when the supplied answers run out, and the entries are removed anyway, as after a timeout.
- LiveService.Drain: a message is dequeued only when an answer for it is supplied. A task blocked on the remote model is represented by the message still being queued. The queue is passed to the drain apart from the session record and written back when it stops. Its properties are the rows of `LiveService.LiveService.ServeQueue` and the `LiveService.Drain...` lemmas.
- LiveService.LiveService.Connect: the live-config construction failure (lines 116-127) is not modelled separately; it has the same outcome as a failed connection. The remote session object is not kept.
- LiveTurn.Turn: the logging line 252 reads `response`, which is bound only once some receive loop of the task has yielded a frame. The line raises whenever no loop has done so yet: the first message's stream is empty, or every earlier message took the frame-error path and the current stream is empty. The model treats this as an ordinary exhausted turn. The `response_queue` put at line 251 and all logging are left out. The turn's properties are stated under `LiveTurn.RunTurn`, the receive loop's (`LiveTurn.Receive`) under `LiveTurn.ReceiveResponses` and its lemmas, and speech (`LiveTurn.TtsEvents`) under `LiveTurn.StreamTtsAudio`.
- LiveTurn.Script: the remote stream and the text-only send never raise in the model. In the source, an exception from `session.receive()` or from the send at line 174 that is not `asyncio.TimeoutError` ends the task: the handler at lines 262-265 clears `connected` but not `task`, as the `Crashed` ending does. An `asyncio.TimeoutError` is swallowed at lines 257-258: the turn is abandoned without the post-loop completion, the flag reset or `done`, and the task goes on with the next message. Neither ending is a case of the model's scripts. A raising framed send (line 163) is modelled: it takes the frame-error path, like an undecodable frame.
- PyValues.Value: only str, int and None values are modelled. Booleans, floats, lists and nested dicts are not, so inputs such as `{'id': False}`, a float price, or a list-valued query (its truthiness and `str()`) lie outside the model.
- Multimodal.Request: only the opening call to the model is recorded. The follow-up `send_message` of lines 178-183 of server/gemini_multimodal_service.py (the function result's `results`, or `[]`, sent back as `products`) is represented only by its reply text or error; its content is not modelled.
- LiveTurn.ToolCall: a tool call always carries a first call and its arguments as a mapping. The two crashes of lines 191-194 of server/gemini_live_service.py are excluded: the IndexError of an empty `function_calls` list and the TypeError of `dict(None)` when the arguments are missing.
- LiveService.Session: the emitter and the client room are kept as one optional room. The source tests key presence in the loop and truthiness after it, so an empty client sid is not modelled.
- The `history` list of a live session is created empty and never read by the core. The model keeps it but no operation changes it.
- The session config dictionary, generation parameters (floats), the system instruction text and the tool schema are left out.
- Base64: decoding is an input (`frameDecodes`, `decodes`, `decodeError`). Chunks carry raw bytes rather than their base64 text.
- The search HTTP request is an input reply; the query is not URL-encoded in the source, and the model does not model the URL.
- `send_user_input_to_session` and `get_current_audio_response` are not modelled: the first is an SDK-driven generator duplicating the multimodal result shaping, and the second reads an attribute that is never defined.
- Live2: the `process_streaming` and `_send_to_gemini` tasks, the out-queue traffic, and `handle_video_frame`'s direct send (which uses a module that is not imported) are left out. Only acceptance and the return value are modelled.
- Live2.Live2Service.GetStatus: the source lists the active ids in insertion order; the model returns them as a set.
- The service models the turn and its constructor as written. The corrected turn of the findings below is a separate definition, selected by `LiveTurn.Policy`; the corrected constructor is `LiveService.LiveService.ResponsesFirst`. Their properties are proved.

## Findings

| source | as written | input that shows it | evidently intended | confidence | as-written member | corrected member |
|---|---|---|---|---|---|---|
| server/gemini_live_service.py:229-244 | the end-of-turn branch emits `response_complete` without checking or setting `_response_complete_sent`; the post-loop check then emits a second completion with the raw text | a session with a client whose stream is a text frame "Hi" then an end-of-turn frame | one completion per message | not executed | LiveTurn.EndOfTurnEmitsTwoCompletions | LiveTurn.CorrectedCompletesAtMostOnce |
| server/gemini_live_service.py:197-215 | for a search with results, the fallback completion is emitted through a `socketio` local that is unbound (or None) when the session has no emitter, e.g. one fed by `process_user_message`; the task dies before answering the tool call | a session without a client whose stream is a single `search_products` call with a non-empty query, and the search returns one product | skip the emit when there is no emitter and answer the call | not executed | LiveTurn.SearchWithoutEmitterCrashes | LiveTurn.SearchWithoutEmitterCorrected |
| server/gemini_live_service.py:58-83 | `session_responses = {}` sits inside the `try` that creates the text-to-speech client; when the client constructor raises, the map is never assigned, and every `create_session` raises after registering the session, before starting its task | a service built without TTS credentials, so that `TextToSpeechClient()` raises at line 59, then `create_session("s")` | speech is optional: assign the map regardless, so a session is created and served without it | not executed | LiveService.TtsFailureStrandsSession | LiveService.TtsFailureCorrected |
