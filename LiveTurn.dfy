/** One message's turn in server/gemini_live_service.py
    (`_session_background_task`, `_execute_function`, `stream_tts_audio`):
    the remote stream is a finite sequence of frames, the Socket.IO emitter
    is the list of events a turn produces, and the search request, the price
    draws and text-to-speech are inputs. */
module LiveTurn {
  import opened PyValues
  import Products

  type SessionId = string

  const SearchProducts: string := "search_products"
  const FallbackText: string := "Here you go!"
  const FrameErrorText: string := "[Error: Could not process image frame]"
  const DefaultMime: string := "image/jpeg"
  const ChunkSize: nat := 4096

  // ------------------------------------------------------------ remote side

  datatype FunctionCall = FunctionCall(id: string, name: string, args: map<string, Value>)

  /** A tool-call frame's `function_calls`: its first call and the others. */
  datatype ToolCall = ToolCall(first: FunctionCall, rest: seq<FunctionCall>)

  /** One response of the remote stream: the fields the loop probes, in the
      order it probes them. */
  datatype Frame = Frame(text: string, toolCall: Option<ToolCall>, endOfTurn: bool)

  /** A frame that ends the receive loop. */
  predicate IsStop(f: Frame) {
    f.toolCall.Some? || f.endOfTurn
  }

  /** What the search request made by `_execute_function` comes back with:
      an HTTP status with the JSON's `results` (if any) and the body text, or
      the exception it raised. */
  datatype SearchReply =
    | HttpReply(status: int, results: Option<seq<Products.Product>>, body: string)
    | SearchRaised(message: string)

  /** `_execute_function`'s return value: the search data, or `{"error": ...}`. */
  datatype FunctionResponse = Data(results: Option<seq<Products.Product>>) | ErrorResponse(error: string)

  /** Everything the outside world contributes to one message: the frames its
      receive loop reads, whether its image frame decodes as base64 and the
      multipart send succeeds (either failure takes the same frame-error
      path), the search reply, the random price draws, and the synthesised
      audio (None when synthesis fails). */
  datatype Script = Script(
    frames: seq<Frame>,
    frameDecodes: bool,
    search: SearchReply,
    priceDraw: nat -> Products.Cents,
    audio: Option<seq<byte>>)

  /** Messages the bridge sends to the remote service. */
  datatype Outbound =
    | SendText(text: string)
    | SendPart(mime: string, payload: string)
    | SendMultipart(text: string, mime: string, payload: string)
    | SendToolResponse(callId: string, name: string, response: FunctionResponse)

  // ------------------------------------------------------------ client side

  /** Socket.IO events: 'error', 'response_chunk', 'function_result',
      'response_complete' (without a session id on the frame-error path),
      'receive_audio_chunk' and 'audio_stream_end'. */
  datatype Event =
    | ErrorEvent(error: string)
    | ResponseChunk(session: SessionId, text: string)
    | FunctionResultEvent(session: SessionId, name: string, results: seq<Products.Product>)
    | ResponseComplete(sessionId: Option<SessionId>, text: string)
    | AudioChunk(audio: seq<byte>)
    | AudioStreamEnd

  function Completions(events: seq<Event>): nat {
    if events == [] then 0
    else Completions(events[..|events| - 1]) + (if events[|events| - 1].ResponseComplete? then 1 else 0)
  }

  lemma {:induction false} CompletionsAppend(a: seq<Event>, b: seq<Event>)
    ensures Completions(a + b) == Completions(a) + Completions(b)
    decreases |b|
  {
    if b == [] {
      assert a + b == a;
    } else {
      assert (a + b)[..|a + b| - 1] == a + b[..|b| - 1];
      CompletionsAppend(a, b[..|b| - 1]);
    }
  }

  // ------------------------------------------------------- tool execution

  /** `_execute_function(function_name, function_args)` */
  function ExecuteFunction(name: string, args: map<string, Value>, search: SearchReply): (r: FunctionResponse)
    ensures name != SearchProducts ==> r == ErrorResponse("Unknown function: " + name)
    ensures name == SearchProducts && !Truthy(Get(args, "query", VNone)) ==> r == ErrorResponse("No query provided")
    ensures r.Data? <==> name == SearchProducts && Truthy(Get(args, "query", VNone))
                         && search.HttpReply? && search.status == 200
    ensures r.Data? ==> r.results == search.results
    ensures name == SearchProducts && Truthy(Get(args, "query", VNone)) && search.HttpReply? && search.status != 200 ==>
              r == ErrorResponse("Search failed with status " + IntToString(search.status) + ": " + search.body)
    ensures name == SearchProducts && Truthy(Get(args, "query", VNone)) && search.SearchRaised? ==>
              r == ErrorResponse("Error executing search: " + search.message)
  {
    if name == SearchProducts then
      var query := Get(args, "query", VNone);
      if !Truthy(query) then ErrorResponse("No query provided")
      else match search
        case HttpReply(status, results, body) =>
          if status == 200 then Data(results)
          else ErrorResponse("Search failed with status " + IntToString(status) + ": " + body)
        case SearchRaised(e) => ErrorResponse("Error executing search: " + e)
    else ErrorResponse("Unknown function: " + name)
  }

  /** The products of a search result as the client sees them:
      `normalize_product` without a query, one price draw per product. */
  function NormalizeAll(products: seq<Products.Product>, priceDraw: nat -> Products.Cents): (r: seq<Products.Product>)
    ensures |r| == |products|
    ensures forall k :: 0 <= k < |r| ==> r[k] == Products.NormalizeProduct(products[k], VNone, priceDraw(k))
  {
    seq(|products|, k requires 0 <= k < |products| => Products.NormalizeProduct(products[k], VNone, priceDraw(k)))
  }

  // ------------------------------------------------------------- data URLs

  /** The mime type read from a data-URL header: the text between the first
      ':' and the next ':' or ';', when the header has both a ':' and a ';';
      "image/jpeg" otherwise. */
  function MimeOf(header: string): (r: string)
    ensures r == DefaultMime || (':' !in r && ';' !in r)
    ensures !(':' in header && ';' in header) ==> r == DefaultMime
    ensures ':' in header && ';' in header ==>
              && r <= After(header, ':') && ':' !in r && ';' !in r
              && (|r| < |After(header, ':')| ==> After(header, ':')[|r|] == ':' || After(header, ':')[|r|] == ';')
  {
    if ':' in header && ';' in header then
      var field := Before(After(header, ':'), ':');
      var r := Before(field, ';');
      PrefixKeepsAbsent(r, field, ':');
      r
    else DefaultMime
  }

  /** The inline data-URL parse: the header is the text before the first
      comma and the payload everything after it. None when there is no comma
      (the source's unpacking error). */
  function ParseDataUrl(frame: string): (r: Option<(string, string)>)
    ensures r.None? <==> ',' !in frame
    ensures r.Some? ==> frame == Before(frame, ',') + "," + r.value.1
                        && r.value.0 == MimeOf(Before(frame, ','))
  {
    if ',' !in frame then None
    else Some((MimeOf(Before(frame, ',')), After(frame, ',')))
  }

  lemma {:induction false} SplitAtFirst(a: string, c: char, b: string)
    requires c !in a
    ensures Before(a + [c] + b, c) == a && After(a + [c] + b, c) == b
    decreases |a|
  {
    var s := a + [c] + b;
    if a == [] {
      assert s[0] == c;
      assert s[1..] == b;
    } else {
      assert s[0] == a[0] && s[0] != c;
      assert s[1..] == a[1..] + [c] + b;
      SplitAtFirst(a[1..], c, b);
    }
  }

  lemma MimeOfWellFormedHeader(mime: string)
    requires ':' !in mime && ';' !in mime
    ensures MimeOf("data:" + mime + ";base64") == mime
  {
    assert "data:" + mime + ";base64" == "data" + [':'] + mime + [';'] + "base64";
    assert ':' !in "data";
    MimeBetween("data", mime, "base64");
  }

  /** A header `pre:mime;post` with no ':' before the first one yields `mime`. */
  lemma MimeBetween(pre: string, mime: string, post: string)
    requires ':' !in pre && ':' !in mime && ';' !in mime
    ensures MimeOf(pre + [':'] + mime + [';'] + post) == mime
  {
    var rest := mime + [';'] + post;
    var header := pre + [':'] + mime + [';'] + post;
    assert header == pre + [':'] + rest;
    SplitAtFirst(pre, ':', rest);
    assert header[|pre|] == ':' && header[|pre| + 1 + |mime|] == ';';
    var r := MimeOf(header);
    assert rest[|mime|] == ';';
    assert |r| <= |mime|;
    assert |r| >= |mime|;
    assert r == rest[..|mime|] == mime;
  }

  /** A well-formed data URL "data:<mime>;base64,<payload>" parses back to
      its mime type and payload, whatever the payload holds. */
  lemma ParseDataUrlRoundTrip(mime: string, payload: string)
    requires ',' !in mime && ':' !in mime && ';' !in mime
    ensures ParseDataUrl("data:" + mime + ";base64," + payload) == Some((mime, payload))
  {
    var header := "data:" + mime + ";base64";
    assert "data:" + mime + ";base64," + payload == header + [','] + payload;
    assert ',' !in header by {
      forall k | 0 <= k < |header|
        ensures header[k] != ','
      {
        if 5 <= k < 5 + |mime| {
          assert header[k] == mime[k - 5];
        }
      }
    }
    SplitAtFirst(header, ',', payload);
    MimeOfWellFormedHeader(mime);
  }

  // ----------------------------------------------------------- receive loop

  /** Index of the first frame that ends the receive loop, or the number of
      frames when none does. */
  function StopIndex(frames: seq<Frame>): (k: nat)
    ensures k <= |frames|
    ensures forall j :: 0 <= j < k ==> !IsStop(frames[j])
    ensures k < |frames| ==> IsStop(frames[k])
  {
    if frames == [] then 0
    else if IsStop(frames[0]) then 0
    else 1 + StopIndex(frames[1..])
  }

  /** The frames the loop reads: up to and including the one that stops it. */
  function Consumed(frames: seq<Frame>): seq<Frame> {
    var k := StopIndex(frames);
    if k < |frames| then frames[..k + 1] else frames
  }

  /** The concatenated text of frames, in order. */
  function Texts(frames: seq<Frame>): string {
    if frames == [] then "" else Texts(frames[..|frames| - 1]) + frames[|frames| - 1].text
  }

  /** One 'response_chunk' per frame with non-empty text, in order. */
  function Deltas(id: SessionId, frames: seq<Frame>): seq<Event> {
    if frames == [] then []
    else
      var last := frames[|frames| - 1];
      Deltas(id, frames[..|frames| - 1]) + (if last.text != "" then [ResponseChunk(id, last.text)] else [])
  }

  /** The text carried by the 'response_chunk' events of a list, in order. */
  function ChunkText(events: seq<Event>): string {
    if events == [] then ""
    else ChunkText(events[..|events| - 1]) + (if events[|events| - 1].ResponseChunk? then events[|events| - 1].text else "")
  }

  /** How the receive loop ended. `Crashed` is the path where the tool branch
      reaches for an emitter the session does not have. */
  datatype Ending = Exhausted | ByTool | ByEndOfTurn | Crashed

  /** The source as written, or with the two fixes described in the README's
      findings (a guarded end-of-turn completion, no emit without an emitter). */
  datatype Policy = AsWritten | Corrected

  datatype Rx = Rx(acc: string, events: seq<Event>, sent: seq<Outbound>,
                   completeSent: bool, functionResultSent: bool, ending: Ending)

  /** A search call whose response carries results. */
  predicate ShowsResults(fc: FunctionCall, response: FunctionResponse) {
    fc.name == SearchProducts && response.Data? && response.results.Some?
  }

  /** The tool branch for the first call `fc` of the stopping frame: execute
      it; for a search with results show them and, unless a completion was
      already sent, send the fallback completion; then answer the call. */
  function ToolStep(policy: Policy, id: SessionId, hasSink: bool, script: Script, fc: FunctionCall,
                    acc: string, deltas: seq<Event>, completeSent: bool, functionResultSent: bool): (r: Rx)
    ensures deltas <= r.events
  {
    var response := ExecuteFunction(fc.name, fc.args, script.search);
    var reply := [SendToolResponse(fc.id, fc.name, response)];
    if ShowsResults(fc, response) then
      var shown := if hasSink then [FunctionResultEvent(id, fc.name, NormalizeAll(response.results.value, script.priceDraw))] else [];
      if completeSent then Rx(acc, deltas + shown, reply, true, true, ByTool)
      else if hasSink then Rx(acc, deltas + shown + [ResponseComplete(Some(id), FallbackText)], reply, true, true, ByTool)
      else if policy == AsWritten then Rx(acc, deltas + shown, [], false, true, Crashed)
      else Rx(acc, deltas + shown, reply, false, true, ByTool)
    else Rx(acc, deltas, reply, completeSent, functionResultSent, ByTool)
  }

  /** The end-of-turn branch: the stripped text, or the fallback when it is
      empty and a search result was shown (clearing that flag). As written the
      completion is sent whatever `_response_complete_sent` says; corrected,
      only when it is clear, and the flag is then set. */
  function EndOfTurnStep(policy: Policy, id: SessionId, hasSink: bool, acc: string, deltas: seq<Event>,
                         completeSent: bool, functionResultSent: bool): (r: Rx)
    ensures deltas <= r.events
  {
    var stripped := Strip(acc);
    var useFallback := stripped == "" && functionResultSent;
    var final := if useFallback then FallbackText else stripped;
    var emit := hasSink && (policy == AsWritten || !completeSent);
    Rx(acc, deltas + (if emit then [ResponseComplete(Some(id), final)] else []), [],
       completeSent || (emit && policy == Corrected), functionResultSent && !useFallback, ByEndOfTurn)
  }

  /** The inner `async for response in session.receive()` loop for one
      message. `hasSink` says whether the session has an emitter and client
      room; the two flags are the session's `_response_complete_sent` and
      `_function_result_sent`. */
  function Receive(policy: Policy, id: SessionId, hasSink: bool, script: Script,
                   completeSent: bool, functionResultSent: bool): Rx
  {
    var frames := script.frames;
    var k := StopIndex(frames);
    var read := Consumed(frames);
    var deltas := if hasSink then Deltas(id, read) else [];
    if k == |frames| then Rx(Texts(read), deltas, [], completeSent, functionResultSent, Exhausted)
    else if frames[k].toolCall.Some? then
      ToolStep(policy, id, hasSink, script, frames[k].toolCall.value.first, Texts(read), deltas, completeSent, functionResultSent)
    else EndOfTurnStep(policy, id, hasSink, Texts(read), deltas, completeSent, functionResultSent)
  }

  /** The tool branch as the loop runs it. */
  method ToolBranch(id: SessionId, hasSink: bool, script: Script, call: FunctionCall,
                    acc: string, deltas: seq<Event>, completeSent: bool, functionResultSent: bool)
    returns (rx: Rx)
    ensures rx == ToolStep(AsWritten, id, hasSink, script, call, acc, deltas, completeSent, functionResultSent)
  {
    var events := deltas;
    var response := ExecuteFunction(call.name, call.args, script.search);
    var reply := [SendToolResponse(call.id, call.name, response)];
    if call.name == SearchProducts && response.Data? && response.results.Some? {
      if hasSink {
        events := events + [FunctionResultEvent(id, call.name, NormalizeAll(response.results.value, script.priceDraw))];
      }
      if !completeSent {
        if !hasSink {
          return Rx(acc, events, [], false, true, Crashed);
        }
        events := events + [ResponseComplete(Some(id), FallbackText)];
      }
      return Rx(acc, events, reply, true, true, ByTool);
    }
    rx := Rx(acc, events, reply, completeSent, functionResultSent, ByTool);
  }

  /** The end-of-turn branch as the loop runs it. */
  method EndOfTurnBranch(id: SessionId, hasSink: bool, acc: string, deltas: seq<Event>,
                         completeSent: bool, functionResultSent: bool)
    returns (rx: Rx)
    ensures rx == EndOfTurnStep(AsWritten, id, hasSink, acc, deltas, completeSent, functionResultSent)
  {
    var events := deltas;
    var final := Strip(acc);
    var flag := functionResultSent;
    if final == "" && functionResultSent {
      final := FallbackText;
      flag := false;
    }
    if hasSink {
      events := events + [ResponseComplete(Some(id), final)];
    }
    rx := Rx(acc, events, [], completeSent, flag, ByEndOfTurn);
  }

  /** The receive loop as the source runs it, frame by frame. */
  method ReceiveResponses(id: SessionId, hasSink: bool, script: Script, completeSent: bool, functionResultSent: bool)
    returns (rx: Rx)
    ensures rx == Receive(AsWritten, id, hasSink, script, completeSent, functionResultSent)
  {
    var frames := script.frames;
    var acc := "";
    var events: seq<Event> := [];
    var i := 0;
    while i < |frames|
      invariant 0 <= i <= StopIndex(frames)
      invariant acc == Texts(frames[..i])
      invariant hasSink ==> events == Deltas(id, frames[..i])
      invariant !hasSink ==> events == []
    {
      ReadOneMore(id, frames, i);
      var frame := frames[i];
      if frame.text != "" {
        acc := acc + frame.text;
        if hasSink {
          events := events + [ResponseChunk(id, frame.text)];
        }
      }
      assert acc == Texts(frames[..i + 1]);
      assert hasSink ==> events == Deltas(id, frames[..i + 1]);
      if IsStop(frame) {
        ReceiveStopsAt(AsWritten, id, hasSink, script, completeSent, functionResultSent, i);
        if frame.toolCall.Some? {
          rx := ToolBranch(id, hasSink, script, frame.toolCall.value.first, acc, events, completeSent, functionResultSent);
        } else {
          rx := EndOfTurnBranch(id, hasSink, acc, events, completeSent, functionResultSent);
        }
        return;
      }
      i := i + 1;
    }
    assert i == |frames|;
    ReceiveExhausts(AsWritten, id, hasSink, script, completeSent, functionResultSent);
    rx := Rx(acc, events, [], completeSent, functionResultSent, Exhausted);
  }

  /** Reading one more frame extends the text by its text and the chunk
      events by one chunk when that text is non-empty. */
  lemma ReadOneMore(id: SessionId, frames: seq<Frame>, i: nat)
    requires i < |frames|
    ensures Texts(frames[..i + 1]) == Texts(frames[..i]) + frames[i].text
    ensures Deltas(id, frames[..i + 1])
            == Deltas(id, frames[..i]) + (if frames[i].text != "" then [ResponseChunk(id, frames[i].text)] else [])
  {
    assert frames[..i + 1][..i] == frames[..i];
  }

  /** The receive step when the loop stops at frame `i`. */
  lemma ReceiveStopsAt(policy: Policy, id: SessionId, hasSink: bool, script: Script,
                       completeSent: bool, functionResultSent: bool, i: nat)
    requires i < |script.frames| && i <= StopIndex(script.frames) && IsStop(script.frames[i])
    ensures var read := script.frames[..i + 1];
            var deltas := if hasSink then Deltas(id, read) else [];
            Receive(policy, id, hasSink, script, completeSent, functionResultSent)
            == if script.frames[i].toolCall.Some?
               then ToolStep(policy, id, hasSink, script, script.frames[i].toolCall.value.first, Texts(read), deltas,
                             completeSent, functionResultSent)
               else EndOfTurnStep(policy, id, hasSink, Texts(read), deltas, completeSent, functionResultSent)
  {
    assert StopIndex(script.frames) == i;
    assert Consumed(script.frames) == script.frames[..i + 1];
  }

  /** The receive step when no frame stops the loop. */
  lemma ReceiveExhausts(policy: Policy, id: SessionId, hasSink: bool, script: Script,
                        completeSent: bool, functionResultSent: bool)
    requires StopIndex(script.frames) == |script.frames|
    ensures var frames := script.frames;
            Receive(policy, id, hasSink, script, completeSent, functionResultSent)
            == Rx(Texts(frames[..|frames|]), if hasSink then Deltas(id, frames[..|frames|]) else [], [],
                  completeSent, functionResultSent, Exhausted)
  {
    assert script.frames[..|script.frames|] == script.frames;
  }

  // ------------------------------------------------------------------ audio

  /** The byte string as consecutive slices of `ChunkSize` bytes, the last one
      possibly shorter. */
  function Chunks(audio: seq<byte>): seq<Event>
    decreases |audio|
  {
    if audio == [] then []
    else if |audio| <= ChunkSize then [AudioChunk(audio)]
    else [AudioChunk(audio[..ChunkSize])] + Chunks(audio[ChunkSize..])
  }

  /** The bytes carried by the audio chunks of a list, in order. */
  function Payload(events: seq<Event>): seq<byte> {
    if events == [] then []
    else Payload(events[..|events| - 1]) + (if events[|events| - 1].AudioChunk? then events[|events| - 1].audio else [])
  }

  lemma {:induction false} PayloadAppend(a: seq<Event>, b: seq<Event>)
    ensures Payload(a + b) == Payload(a) + Payload(b)
    decreases |b|
  {
    if b == [] {
      assert a + b == a;
    } else {
      assert (a + b)[..|a + b| - 1] == a + b[..|b| - 1];
      PayloadAppend(a, b[..|b| - 1]);
    }
  }

  /** The chunks carry the whole audio in order; every chunk is non-empty and
      at most `ChunkSize` bytes, every one but the last exactly `ChunkSize`,
      and there are as many as `ChunkSize`-byte pieces fit, rounded up. */
  lemma ChunksShape(audio: seq<byte>)
    ensures var r := Chunks(audio);
            && |r| == (|audio| + ChunkSize - 1) / ChunkSize
            && (forall k :: 0 <= k < |r| ==> r[k].AudioChunk? && 0 < |r[k].audio| <= ChunkSize)
            && (forall k :: 0 <= k < |r| - 1 ==> |r[k].audio| == ChunkSize)
            && Payload(r) == audio
  {
    ChunksCount(audio);
    ChunksBounded(audio);
    ChunksPayload(audio);
  }

  lemma {:induction false} ChunksCount(audio: seq<byte>)
    ensures |Chunks(audio)| == (|audio| + ChunkSize - 1) / ChunkSize
    decreases |audio|
  {
    var n := |audio|;
    if n == 0 {
      assert (n + ChunkSize - 1) / ChunkSize == 0;
    } else if n <= ChunkSize {
      assert (n + ChunkSize - 1) / ChunkSize == 1;
    } else {
      ChunksCount(audio[ChunkSize..]);
      assert (n + ChunkSize - 1) / ChunkSize == (n - 1) / ChunkSize + 1;
    }
  }

  lemma {:induction false} ChunksBounded(audio: seq<byte>)
    ensures forall k :: 0 <= k < |Chunks(audio)| ==>
              Chunks(audio)[k].AudioChunk? && 0 < |Chunks(audio)[k].audio| <= ChunkSize
    ensures forall k :: 0 <= k < |Chunks(audio)| - 1 ==> |Chunks(audio)[k].audio| == ChunkSize
    decreases |audio|
  {
    if |audio| > ChunkSize {
      var head := AudioChunk(audio[..ChunkSize]);
      var tail := Chunks(audio[ChunkSize..]);
      var all := Chunks(audio);
      ChunksBounded(audio[ChunkSize..]);
      assert all == [head] + tail;
      forall k | 0 <= k < |all|
        ensures all[k].AudioChunk? && 0 < |all[k].audio| <= ChunkSize
        ensures k < |all| - 1 ==> |all[k].audio| == ChunkSize
      {
        if k > 0 {
          assert all[k] == tail[k - 1];
        }
      }
    }
  }

  lemma {:induction false} ChunksPayload(audio: seq<byte>)
    ensures Payload(Chunks(audio)) == audio
    decreases |audio|
  {
    if audio == [] {
    } else if |audio| <= ChunkSize {
      assert Payload([AudioChunk(audio)]) == Payload([]) + audio;
    } else {
      var head := AudioChunk(audio[..ChunkSize]);
      var tail := Chunks(audio[ChunkSize..]);
      ChunksPayload(audio[ChunkSize..]);
      PayloadAppend([head], tail);
      assert Payload([head]) == Payload([]) + audio[..ChunkSize];
      assert audio == audio[..ChunkSize] + audio[ChunkSize..];
    }
  }

  function Min(a: int, b: int): int {
    if a <= b then a else b
  }

  lemma ChunksFrom(bytes: seq<byte>, i: nat)
    requires i < |bytes|
    ensures Chunks(bytes[i..]) == [AudioChunk(bytes[i..Min(i + ChunkSize, |bytes|)])] + Chunks(bytes[Min(i + ChunkSize, |bytes|)..])
  {
    var rest := bytes[i..];
    if |rest| <= ChunkSize {
      assert bytes[i..Min(i + ChunkSize, |bytes|)] == rest;
      assert bytes[|bytes|..] == [];
    } else {
      assert rest[..ChunkSize] == bytes[i..i + ChunkSize];
      assert rest[ChunkSize..] == bytes[i + ChunkSize..];
    }
  }

  /** What `stream_tts_audio` emits: nothing without a TTS client, for empty
      text or when synthesis fails; otherwise the chunks and one end marker. */
  function TtsEvents(hasTts: bool, text: string, audio: Option<seq<byte>>): seq<Event> {
    if !hasTts || text == "" || audio.None? then [] else Chunks(audio.value) + [AudioStreamEnd]
  }

  /** `stream_tts_audio(session_id, text, socketio, client_sid)`: nothing, or
      chunks carrying exactly the synthesised audio followed by one end marker. */
  method StreamTtsAudio(hasTts: bool, text: string, audio: Option<seq<byte>>) returns (events: seq<Event>)
    ensures events == TtsEvents(hasTts, text, audio)
    ensures !hasTts || text == "" || audio.None? ==> events == []
    ensures hasTts && text != "" && audio.Some? ==>
              && |events| >= 1 && events[|events| - 1] == AudioStreamEnd
              && Payload(events[..|events| - 1]) == audio.value
  {
    if !hasTts || text == "" || audio.None? {
      return [];
    }
    var bytes := audio.value;
    events := [];
    var i := 0;
    while i < |bytes|
      invariant 0 <= i
      invariant events + Chunks(bytes[Min(i, |bytes|)..]) == Chunks(bytes)
      decreases |bytes| - i
    {
      var end := Min(i + ChunkSize, |bytes|);
      ChunksFrom(bytes, i);
      events := events + [AudioChunk(bytes[i..end])];
      i := i + ChunkSize;
    }
    assert bytes[|bytes|..] == [];
    events := events + [AudioStreamEnd];
    assert events[..|events| - 1] == Chunks(bytes);
    ChunksShape(bytes);
  }

  // -------------------------------------------------------------- the turn

  datatype TurnResult = TurnResult(events: seq<Event>, sent: seq<Outbound>,
                                   completeSent: bool, functionResultSent: bool, ending: Ending)

  /** The check after the receive loop: when the session has an emitter and
      no completion was sent, the raw accumulated text is sent as the
      completion and then spoken. */
  function PostLoop(id: SessionId, hasSink: bool, rx: Rx, hasTts: bool, audio: Option<seq<byte>>): seq<Event> {
    if hasSink && !rx.completeSent then [ResponseComplete(Some(id), rx.acc)] + TtsEvents(hasTts, rx.acc, audio) else []
  }

  /** One message's turn after its input was sent: the receive loop, the
      post-loop check, and the reset of `_response_complete_sent`. A crash
      leaves the flags as the loop left them. */
  function Turn(policy: Policy, id: SessionId, hasSink: bool, script: Script,
                completeSent: bool, functionResultSent: bool, hasTts: bool): TurnResult
  {
    var rx := Receive(policy, id, hasSink, script, completeSent, functionResultSent);
    if rx.ending == Crashed then TurnResult(rx.events, rx.sent, rx.completeSent, rx.functionResultSent, Crashed)
    else TurnResult(rx.events + PostLoop(id, hasSink, rx, hasTts, script.audio), rx.sent, false, rx.functionResultSent, rx.ending)
  }

  /** The turn as the background task runs it. */
  method RunTurn(id: SessionId, hasSink: bool, script: Script, completeSent: bool, functionResultSent: bool, hasTts: bool)
    returns (t: TurnResult)
    ensures t == Turn(AsWritten, id, hasSink, script, completeSent, functionResultSent, hasTts)
    ensures t.ending != Crashed ==> !t.completeSent
  {
    var rx := ReceiveResponses(id, hasSink, script, completeSent, functionResultSent);
    if rx.ending == Crashed {
      return TurnResult(rx.events, rx.sent, rx.completeSent, rx.functionResultSent, Crashed);
    }
    var events := rx.events;
    if hasSink && !rx.completeSent {
      events := events + [ResponseComplete(Some(id), rx.acc)];
      var speech := StreamTtsAudio(hasTts, rx.acc, script.audio);
      events := events + speech;
    }
    assert events == rx.events + PostLoop(id, hasSink, rx, hasTts, script.audio);
    TurnAfterReceive(AsWritten, id, hasSink, script, completeSent, functionResultSent, hasTts, rx);
    t := TurnResult(events, rx.sent, false, rx.functionResultSent, rx.ending);
  }

  lemma {:induction false} DeltasAreChunks(id: SessionId, frames: seq<Frame>)
    ensures forall k :: 0 <= k < |Deltas(id, frames)| ==> Deltas(id, frames)[k].ResponseChunk?
  {
    if frames != [] {
      DeltasAreChunks(id, frames[..|frames| - 1]);
    }
  }

  lemma {:induction false} NoCompletionsIn(events: seq<Event>)
    requires forall k :: 0 <= k < |events| ==> !events[k].ResponseComplete?
    ensures Completions(events) == 0
  {
    if events != [] {
      NoCompletionsIn(events[..|events| - 1]);
    }
  }

  lemma SingleCompletion(e: Event, rest: seq<Event>)
    requires e.ResponseComplete?
    requires forall k :: 0 <= k < |rest| ==> !rest[k].ResponseComplete?
    ensures Completions([e] + rest) == 1
  {
    NoCompletionsIn(rest);
    CompletionsAppend([e], rest);
    assert [e][..0] == [];
  }

  lemma PostLoopCompletions(id: SessionId, hasSink: bool, rx: Rx, hasTts: bool, audio: Option<seq<byte>>)
    ensures Completions(PostLoop(id, hasSink, rx, hasTts, audio)) == if hasSink && !rx.completeSent then 1 else 0
  {
    if hasSink && !rx.completeSent {
      var speech := TtsEvents(hasTts, rx.acc, audio);
      if speech != [] {
        var chunks := Chunks(audio.value);
        ChunksShape(audio.value);
        assert speech == chunks + [AudioStreamEnd];
        assert forall k :: 0 <= k < |speech| ==> !speech[k].ResponseComplete? by {
          forall k | 0 <= k < |speech|
            ensures !speech[k].ResponseComplete?
          {
            if k < |chunks| {
              assert speech[k] == chunks[k];
            }
          }
        }
      }
      SingleCompletion(ResponseComplete(Some(id), rx.acc), speech);
    }
  }

  /** The tool branch sends at most one completion, exactly when it sets a
      flag that was clear; it never clears the flag, and without an emitter
      it never sets it. */
  lemma ToolStepCompletions(policy: Policy, id: SessionId, hasSink: bool, script: Script, fc: FunctionCall,
                            acc: string, deltas: seq<Event>, completeSent: bool, functionResultSent: bool)
    requires Completions(deltas) == 0
    ensures var r := ToolStep(policy, id, hasSink, script, fc, acc, deltas, completeSent, functionResultSent);
            && Completions(r.events) == (if !completeSent && r.completeSent then 1 else 0)
            && (completeSent ==> r.completeSent)
            && (!hasSink ==> r.completeSent == completeSent)
            && (r.ending == ByTool || r.ending == Crashed)
  {
    var r := ToolStep(policy, id, hasSink, script, fc, acc, deltas, completeSent, functionResultSent);
    var response := ExecuteFunction(fc.name, fc.args, script.search);
    if ShowsResults(fc, response) {
      var shown := if hasSink then [FunctionResultEvent(id, fc.name, NormalizeAll(response.results.value, script.priceDraw))] else [];
      NoCompletionsIn(shown);
      CompletionsAppend(deltas, shown);
      if completeSent || !hasSink {
        assert r.events == deltas + shown;
      } else {
        var done := ResponseComplete(Some(id), FallbackText);
        assert r.events == deltas + shown + [done];
        CompletionsAppend(deltas + shown, [done]);
        assert Completions([done]) == 1;
      }
    } else {
      assert r.events == deltas;
    }
  }

  /** The end-of-turn branch as written sends one completion whenever there is
      an emitter and leaves the flag alone; corrected, it sends one exactly
      when it sets a flag that was clear. */
  lemma EndOfTurnStepCompletions(policy: Policy, id: SessionId, hasSink: bool, acc: string, deltas: seq<Event>,
                                 completeSent: bool, functionResultSent: bool)
    requires Completions(deltas) == 0
    ensures var r := EndOfTurnStep(policy, id, hasSink, acc, deltas, completeSent, functionResultSent);
            && (policy == AsWritten ==> Completions(r.events) == (if hasSink then 1 else 0) && r.completeSent == completeSent)
            && (policy == Corrected ==> Completions(r.events) == (if !completeSent && r.completeSent then 1 else 0)
                                        && r.completeSent == (completeSent || hasSink))
  {
    var r := EndOfTurnStep(policy, id, hasSink, acc, deltas, completeSent, functionResultSent);
    var emit := hasSink && (policy == AsWritten || !completeSent);
    if emit {
      CompletionsAppend(deltas, [r.events[|r.events| - 1]]);
      assert r.events == deltas + [r.events[|r.events| - 1]];
      assert Completions([r.events[|r.events| - 1]]) == 1;
    } else {
      assert r.events == deltas;
    }
  }

  /** The loop's own completions, before the post-loop check. */
  lemma ReceiveCompletions(policy: Policy, id: SessionId, hasSink: bool, script: Script,
                           completeSent: bool, functionResultSent: bool)
    ensures var rx := Receive(policy, id, hasSink, script, completeSent, functionResultSent);
            && (rx.ending == ByEndOfTurn && policy == AsWritten ==>
                  Completions(rx.events) == (if hasSink then 1 else 0) && rx.completeSent == completeSent)
            && (rx.ending != ByEndOfTurn || policy == Corrected ==>
                  Completions(rx.events) == (if !completeSent && rx.completeSent then 1 else 0)
                  && (completeSent ==> rx.completeSent)
                  && (!hasSink ==> rx.completeSent == completeSent))
  {
    var frames := script.frames;
    var k := StopIndex(frames);
    var read := Consumed(frames);
    var deltas := if hasSink then Deltas(id, read) else [];
    DeltasAreChunks(id, read);
    NoCompletionsIn(deltas);
    if k < |frames| && frames[k].toolCall.Some? {
      ToolStepCompletions(policy, id, hasSink, script, frames[k].toolCall.value.first, Texts(read), deltas, completeSent, functionResultSent);
    } else if k < |frames| {
      EndOfTurnStepCompletions(policy, id, hasSink, Texts(read), deltas, completeSent, functionResultSent);
    }
  }

  /** Completion count of a turn as written: the tool-path and post-loop
      sites, which share the `_response_complete_sent` guard, send exactly one
      completion between them when the flag starts clear and none when it
      starts set; the unguarded end-of-turn site sends one more. With an
      emitter the turn does not crash, and the flag is clear afterwards. */
  lemma AsWrittenCompletionCount(id: SessionId, script: Script, completeSent: bool, functionResultSent: bool, hasTts: bool)
    ensures var t := Turn(AsWritten, id, true, script, completeSent, functionResultSent, hasTts);
            && t.ending != Crashed
            && Completions(t.events) == (if t.ending == ByEndOfTurn then 1 else 0) + (if completeSent then 0 else 1)
            && !t.completeSent
  {
    var rx := Receive(AsWritten, id, true, script, completeSent, functionResultSent);
    ReceiveCompletions(AsWritten, id, true, script, completeSent, functionResultSent);
    ReceiveDoesNotCrash(AsWritten, id, true, script, completeSent, functionResultSent);
    TurnAfterReceive(AsWritten, id, true, script, completeSent, functionResultSent, hasTts, rx);
    PostLoopCompletions(id, true, rx, hasTts, script.audio);
    CompletionsAppend(rx.events, PostLoop(id, true, rx, hasTts, script.audio));
  }

  /** Only the tool branch can crash, and only as written and without an emitter. */
  lemma ReceiveDoesNotCrash(policy: Policy, id: SessionId, hasSink: bool, script: Script,
                            completeSent: bool, functionResultSent: bool)
    requires hasSink || policy == Corrected
    ensures Receive(policy, id, hasSink, script, completeSent, functionResultSent).ending != Crashed
  {
    var frames := script.frames;
    var k := StopIndex(frames);
    var read := Consumed(frames);
    var deltas := if hasSink then Deltas(id, read) else [];
    if k < |frames| && frames[k].toolCall.Some? {
      assert Receive(policy, id, hasSink, script, completeSent, functionResultSent)
          == ToolStep(policy, id, hasSink, script, frames[k].toolCall.value.first, Texts(read), deltas,
                      completeSent, functionResultSent);
    }
  }

  /** With the fixes a turn never crashes and sends at most one completion:
      exactly one when the session has an emitter and the flag starts clear. */
  lemma CorrectedCompletesAtMostOnce(id: SessionId, hasSink: bool, script: Script, completeSent: bool,
                                     functionResultSent: bool, hasTts: bool)
    ensures var t := Turn(Corrected, id, hasSink, script, completeSent, functionResultSent, hasTts);
            && t.ending != Crashed
            && Completions(t.events) == (if hasSink && !completeSent then 1 else 0)
            && !t.completeSent
  {
    var rx := Receive(Corrected, id, hasSink, script, completeSent, functionResultSent);
    ReceiveCompletions(Corrected, id, hasSink, script, completeSent, functionResultSent);
    ReceiveDoesNotCrash(Corrected, id, hasSink, script, completeSent, functionResultSent);
    TurnAfterReceive(Corrected, id, hasSink, script, completeSent, functionResultSent, hasTts, rx);
    PostLoopCompletions(id, hasSink, rx, hasTts, script.audio);
    CompletionsAppend(rx.events, PostLoop(id, hasSink, rx, hasTts, script.audio));
  }

  /** A turn showing the end-of-turn path sending two completions: one text
      frame (any text without surrounding whitespace, such as "Hi"), then the
      end-of-turn marker. */
  lemma EndOfTurnEmitsTwoCompletions(id: SessionId, t: string, script: Script)
    requires t != "" && !IsSpace(t[0]) && !IsSpace(t[|t| - 1])
    requires script.frames == [Frame(t, None, false), Frame("", None, true)]
    ensures Turn(AsWritten, id, true, script, false, false, false).events
            == [ResponseChunk(id, t), ResponseComplete(Some(id), t), ResponseComplete(Some(id), t)]
  {
    GreetingStops(t, script.frames);
    var rx := Rx(t, [ResponseChunk(id, t), ResponseComplete(Some(id), t)], [], false, false, ByEndOfTurn);
    GreetingReceive(id, t, script);
    TurnAfterReceive(AsWritten, id, true, script, false, false, false, rx);
    assert PostLoop(id, true, rx, false, script.audio) == [ResponseComplete(Some(id), t)];
  }

  /** A turn whose receive loop did not crash is that loop's outcome
      followed by the post-loop events, with the completion flag reset. */
  lemma TurnAfterReceive(policy: Policy, id: SessionId, hasSink: bool, script: Script,
                         completeSent: bool, functionResultSent: bool, hasTts: bool, rx: Rx)
    requires Receive(policy, id, hasSink, script, completeSent, functionResultSent) == rx
    requires rx.ending != Crashed
    ensures Turn(policy, id, hasSink, script, completeSent, functionResultSent, hasTts)
            == TurnResult(rx.events + PostLoop(id, hasSink, rx, hasTts, script.audio), rx.sent, false,
                          rx.functionResultSent, rx.ending)
  {
  }

  lemma GreetingReceive(id: SessionId, t: string, script: Script)
    requires t != "" && !IsSpace(t[0]) && !IsSpace(t[|t| - 1])
    requires script.frames == [Frame(t, None, false), Frame("", None, true)]
    ensures Receive(AsWritten, id, true, script, false, false)
            == Rx(t, [ResponseChunk(id, t), ResponseComplete(Some(id), t)], [], false, false, ByEndOfTurn)
  {
    GreetingReachesEndOfTurn(id, t, script);
    StripUnpadded(t);
    EndOfTurnUnpadded(id, t, [ResponseChunk(id, t)]);
  }

  /** The two-frame stream stops at its second frame, which carries no tool call. */
  lemma GreetingStops(t: string, frames: seq<Frame>)
    requires frames == [Frame(t, None, false), Frame("", None, true)]
    ensures StopIndex(frames) == 1 && frames[1].toolCall.None? && Consumed(frames) == frames
  {
    assert frames[1..] == [Frame("", None, true)];
  }

  lemma GreetingReachesEndOfTurn(id: SessionId, t: string, script: Script)
    requires t != ""
    requires script.frames == [Frame(t, None, false), Frame("", None, true)]
    ensures Receive(AsWritten, id, true, script, false, false)
            == EndOfTurnStep(AsWritten, id, true, t, [ResponseChunk(id, t)], false, false)
  {
    var first := Frame(t, None, false);
    var frames := script.frames;
    GreetingStops(t, frames);
    assert [first][..0] == [];
    assert Texts([first]) == t;
    assert Deltas(id, [first]) == [ResponseChunk(id, t)];
    assert frames[..|frames| - 1] == [first];
    assert Texts(frames) == t;
    assert Deltas(id, frames) == [ResponseChunk(id, t)];
  }

  lemma EndOfTurnUnpadded(id: SessionId, acc: string, deltas: seq<Event>)
    requires Strip(acc) == acc && acc != ""
    ensures EndOfTurnStep(AsWritten, id, true, acc, deltas, false, false)
            == Rx(acc, deltas + [ResponseComplete(Some(id), acc)], [], false, false, ByEndOfTurn)
  {
  }

  /** A concrete turn showing the crash: a session without an emitter whose
      stream requests a search that returns results. The tool response is
      never sent. */
  lemma SearchWithoutEmitterCrashes(id: SessionId, priceDraw: nat -> Products.Cents)
    ensures var call := FunctionCall("c1", SearchProducts, map["query" := VStr("blue jacket")]);
            var script := Script([Frame("", Some(ToolCall(call, [])), false)], false,
                                 HttpReply(200, Some([map[]]), ""), priceDraw, None);
            var t := Turn(AsWritten, id, false, script, false, false, false);
            t.ending == Crashed && t.sent == [] && t.functionResultSent
  {
    var call := FunctionCall("c1", SearchProducts, map["query" := VStr("blue jacket")]);
    var frames := [Frame("", Some(ToolCall(call, [])), false)];
    assert StopIndex(frames) == 0;
  }

  /** The same stream with the fix completes without crashing and answers
      the call. */
  lemma SearchWithoutEmitterCorrected(id: SessionId, priceDraw: nat -> Products.Cents)
    ensures var call := FunctionCall("c1", SearchProducts, map["query" := VStr("blue jacket")]);
            var script := Script([Frame("", Some(ToolCall(call, [])), false)], false,
                                 HttpReply(200, Some([map[]]), ""), priceDraw, None);
            var t := Turn(Corrected, id, false, script, false, false, false);
            t.ending == ByTool && t.sent == [SendToolResponse("c1", SearchProducts, Data(Some([map[]])))]
  {
    var call := FunctionCall("c1", SearchProducts, map["query" := VStr("blue jacket")]);
    var frames := [Frame("", Some(ToolCall(call, [])), false)];
    assert StopIndex(frames) == 0;
  }

  /** The search scenario: a tool call for "blue jacket" whose search returns
      two products yields the function result with both products normalised,
      followed by the single fallback completion, and sends the search data
      back to the remote service. */
  lemma SearchScenario(id: SessionId, p1: Products.Product, p2: Products.Product, priceDraw: nat -> Products.Cents)
    ensures var call := FunctionCall("c1", SearchProducts, map["query" := VStr("blue jacket")]);
            var script := Script([Frame("", Some(ToolCall(call, [])), false)], false,
                                 HttpReply(200, Some([p1, p2]), ""), priceDraw, None);
            var t := Turn(AsWritten, id, true, script, false, false, true);
            && t.events == [FunctionResultEvent(id, SearchProducts, NormalizeAll([p1, p2], priceDraw)),
                            ResponseComplete(Some(id), FallbackText)]
            && |NormalizeAll([p1, p2], priceDraw)| == 2
            && t.sent == [SendToolResponse("c1", SearchProducts, Data(Some([p1, p2])))]
            && t.functionResultSent && !t.completeSent
  {
    var call := FunctionCall("c1", SearchProducts, map["query" := VStr("blue jacket")]);
    var frames := [Frame("", Some(ToolCall(call, [])), false)];
    assert StopIndex(frames) == 0;
    assert Consumed(frames) == frames;
    assert frames[..0] == [];
    assert Deltas(id, frames) == [];
  }

  lemma {:induction false} ChunkTextAppend(a: seq<Event>, b: seq<Event>)
    ensures ChunkText(a + b) == ChunkText(a) + ChunkText(b)
    decreases |b|
  {
    if b == [] {
      assert a + b == a;
    } else {
      assert (a + b)[..|a + b| - 1] == a + b[..|b| - 1];
      ChunkTextAppend(a, b[..|b| - 1]);
    }
  }

  /** The 'response_chunk' events carry exactly the text of the frames, in
      the order the frames arrived. */
  lemma {:induction false} DeltasCarryTexts(id: SessionId, frames: seq<Frame>)
    ensures ChunkText(Deltas(id, frames)) == Texts(frames)
  {
    if frames != [] {
      var init := frames[..|frames| - 1];
      var last := frames[|frames| - 1];
      DeltasCarryTexts(id, init);
      var extra := if last.text != "" then [ResponseChunk(id, last.text)] else [];
      ChunkTextAppend(Deltas(id, init), extra);
      if last.text != "" {
        assert extra[..0] == [];
      }
    }
  }

  /** The accumulated text is the text of the frames up to and including the
      one that stops the loop, and with an emitter the loop's events start with
      chunks carrying exactly that text. */
  lemma ReceiveAccumulates(policy: Policy, id: SessionId, script: Script, completeSent: bool, functionResultSent: bool)
    ensures var rx := Receive(policy, id, true, script, completeSent, functionResultSent);
            var deltas := Deltas(id, Consumed(script.frames));
            && rx.acc == Texts(Consumed(script.frames))
            && deltas <= rx.events
            && ChunkText(deltas) == rx.acc
  {
    DeltasCarryTexts(id, Consumed(script.frames));
  }

  /** Only the first call of a tool-call frame is executed: the loop ends with
      exactly one tool response, for that call, or (after the crash) none;
      it sends nothing on the other paths. */
  lemma OnlyFirstCallExecuted(id: SessionId, hasSink: bool, script: Script, completeSent: bool, functionResultSent: bool)
    ensures var rx := Receive(AsWritten, id, hasSink, script, completeSent, functionResultSent);
            var k := StopIndex(script.frames);
            && (rx.ending == ByTool ==>
                  k < |script.frames| && script.frames[k].toolCall.Some?
                  && var fc := script.frames[k].toolCall.value.first;
                     rx.sent == [SendToolResponse(fc.id, fc.name, ExecuteFunction(fc.name, fc.args, script.search))])
            && (rx.ending != ByTool ==> rx.sent == [])
  {
  }

  /** At end of turn the completion text is the stripped accumulated text,
      replaced by the fallback only when that is empty and a search result
      was shown, in which case the flag is cleared; otherwise it is kept. */
  lemma EndOfTurnText(id: SessionId, script: Script, completeSent: bool, functionResultSent: bool)
    requires StopIndex(script.frames) < |script.frames|
    requires script.frames[StopIndex(script.frames)].toolCall.None?
    ensures var rx := Receive(AsWritten, id, true, script, completeSent, functionResultSent);
            var stripped := Strip(Texts(Consumed(script.frames)));
            && rx.ending == ByEndOfTurn
            && |rx.events| >= 1
            && rx.events[|rx.events| - 1]
               == ResponseComplete(Some(id), if stripped == "" && functionResultSent then FallbackText else stripped)
            && rx.functionResultSent == (functionResultSent && stripped != "")
            && (stripped != "" ==> !IsSpace(stripped[0]) && !IsSpace(stripped[|stripped| - 1]))
  {
    var read := Consumed(script.frames);
    assert Receive(AsWritten, id, true, script, completeSent, functionResultSent)
        == EndOfTurnStep(AsWritten, id, true, Texts(read), Deltas(id, read), completeSent, functionResultSent);
    StripIsTrimmedMiddle(Texts(read));
  }
}
