/** The session registry of server/gemini_live_service.py
    (`GeminiLiveService`): `active_sessions` and `session_responses`, the
    inbound message queue of each session, and the background task that
    drains it one message at a time. Everything the service emits to
    Socket.IO rooms and sends to the remote service is kept as two logs. */
module LiveService {
  import opened PyValues
  import opened LiveTurn

  /** A Socket.IO room: the client's sid. */
  type Room = string

  /** What the inbound queue holds: the `None` sentinel, a bare text
      (`process_user_message`), a (message, frame) pair
      (`process_user_message_socketio`) or an image part (`handle_video_frame`). */
  datatype Item =
    | Terminate
    | Bare(text: string)
    | Pair(message: Option<string>, frame: Option<string>)
    | ImagePart(mime: string, payload: string)

  /** Items that end the background task when dequeued. */
  predicate Terminates(item: Item) {
    item.Terminate? || (item.Pair? && item.message.None?)
  }

  /** How far the background coroutine has got: still connecting, serving
      its queue, or not running (returned, or never started). */
  datatype Stage = Connecting | Running | Stopped

  /** A record of `active_sessions`. `sink` is the client room, set together
      with the emitter; the two flags are `_response_complete_sent` and
      `_function_result_sent`; `task` says whether the task handle is set. */
  datatype Session = Session(
    queue: seq<Item>,
    connected: bool,
    task: bool,
    history: seq<string>,
    sink: Option<Room>,
    completeSent: bool,
    functionResultSent: bool,
    stage: Stage)

  /** The record `create_session` installs, with its task just started. */
  const NewSession: Session := Session([], false, true, [], None, false, false, Connecting)

  /** The record `create_session` leaves behind when it raises before
      starting the task: no task handle, no coroutine. */
  const UnstartedSession: Session := NewSession.(task := false, stage := Stopped)

  /** How far the text-to-speech set-up in the constructor got: all of it;
      a failure before `session_responses` is assigned (the client or the
      voice could not be created); or a failure after it (the audio
      configuration). Only the first leaves a TTS client. */
  datatype TtsSetup = TtsReady | FailedBeforeResponses | FailedAfterResponses

  /** A call that returns a value, or raises AttributeError because the
      service never assigned `session_responses`. */
  datatype Outcome<T> = Returned(value: T) | AttributeError

  /** A record of `session_responses`; `retrieved` false stands for the key
      being absent. */
  datatype Slot = Slot(text: string, done: bool, audio: Option<seq<byte>>, retrieved: bool)

  const FreshSlot: Slot := Slot("", false, None, false)
  const ClearedSlot: Slot := Slot("", false, None, true)

  datatype Emitted = Emitted(room: Room, event: Event)
  datatype Sent = Sent(session: SessionId, message: Outbound)

  /** `{"error": ...}` or `{"status": "processing"}` */
  datatype Reply = ErrorReply(error: string) | Processing

  function InRoom(sink: Option<Room>, events: seq<Event>): (r: seq<Emitted>)
    ensures |r| == if sink.Some? then |events| else 0
    ensures sink.Some? ==> forall k :: 0 <= k < |r| ==> r[k] == Emitted(sink.value, events[k])
  {
    if sink.None? then [] else seq(|events|, k requires 0 <= k < |events| => Emitted(sink.value, events[k]))
  }

  function Tagged(id: SessionId, messages: seq<Outbound>): (r: seq<Sent>)
    ensures |r| == |messages|
    ensures forall k :: 0 <= k < |r| ==> r[k] == Sent(id, messages[k])
  {
    seq(|messages|, k requires 0 <= k < |messages| => Sent(id, messages[k]))
  }

  // --------------------------------------------------------- one message

  /** What a dequeued message asks for: a message to send to the remote
      service, or the frame-error path (the data URL has no comma, or its
      payload does not decode). */
  datatype Request = Send(message: Outbound) | FrameError

  function RequestOf(item: Item, decodes: bool): (r: Request)
    requires !Terminates(item)
    ensures item.Bare? ==> r == Send(SendText(item.text))
    ensures item.ImagePart? ==> r == Send(SendPart(item.mime, item.payload))
    ensures item.Pair? && (item.frame.None? || item.frame.value == "") ==> r == Send(SendText(item.message.value))
    ensures r.FrameError? <==>
              (item.Pair? && item.frame.Some? && item.frame.value != "" && (',' !in item.frame.value || !decodes))
    ensures item.Pair? && item.frame.Some? && item.frame.value != "" && r.Send? ==>
              ParseDataUrl(item.frame.value).Some?
              && r == Send(SendMultipart(item.message.value, ParseDataUrl(item.frame.value).value.0,
                                         ParseDataUrl(item.frame.value).value.1))
  {
    if item.Bare? then Send(SendText(item.text))
    else if item.ImagePart? then Send(SendPart(item.mime, item.payload))
    else if item.frame.Some? && item.frame.value != "" then
      match ParseDataUrl(item.frame.value)
      case None => FrameError
      case Some(parsed) => if decodes then Send(SendMultipart(item.message.value, parsed.0, parsed.1)) else FrameError
    else Send(SendText(item.message.value))
  }

  /** A message with a well-formed frame goes out as text plus the image,
      with the frame's own mime type and payload. */
  lemma FramedMessageSent(text: string, mime: string, payload: string)
    requires ',' !in mime && ':' !in mime && ';' !in mime
    ensures RequestOf(Pair(Some(text), Some("data:" + mime + ";base64," + payload)), true)
            == Send(SendMultipart(text, mime, payload))
  {
    ParseDataUrlRoundTrip(mime, payload);
  }

  datatype Status = Serving | Finished | Failed

  /** The background task's view while it drains a queue: the session record,
      its response slot, the two logs, and whether it is still serving. */
  datatype Run = Run(session: Session, slot: Slot, log: seq<Emitted>, remote: seq<Sent>, status: Status)

  /** One dequeued message that does not terminate: the slot is reset; on the
      frame-error path only the error completion is emitted; otherwise the
      input is sent and the turn runs, after which the slot is marked done,
      unless the turn crashed, which ends the task. */
  function Step(run: Run, item: Item, script: Script, id: SessionId, hasTts: bool): (r: Run)
    requires !Terminates(item)
    ensures r.session.queue == run.session.queue
    ensures run.log <= r.log && run.remote <= r.remote
  {
    var s := run.session;
    match RequestOf(item, script.frameDecodes)
    case FrameError =>
      run.(slot := FreshSlot, log := run.log + InRoom(s.sink, [ResponseComplete(None, FrameErrorText)]))
    case Send(message) =>
      Respond(run, message, Turn(AsWritten, id, s.sink.Some?, script, s.completeSent, s.functionResultSent, hasTts), id)
  }

  /** The record after the turn `t` for `message`: its events go to the
      client's room, the message and the tool responses to the remote, the
      flags are written back, and the slot is marked done; a crash instead
      ends the task with `connected` cleared. */
  function Respond(run: Run, message: Outbound, t: TurnResult, id: SessionId): (r: Run)
    ensures r.session.queue == run.session.queue
    ensures run.log <= r.log && run.remote <= r.remote
  {
    var s := run.session;
    var log := run.log + InRoom(s.sink, t.events);
    var remote := run.remote + Tagged(id, [message] + t.sent);
    var session := s.(completeSent := t.completeSent, functionResultSent := t.functionResultSent);
    if t.ending == Crashed then Run(session.(connected := false, stage := Stopped), FreshSlot, log, remote, Failed)
    else Run(session, FreshSlot.(done := true), log, remote, Serving)
  }

  /** One dequeued message, as the loop body runs it. */
  method ProcessMessage(run: Run, item: Item, script: Script, id: SessionId, hasTts: bool) returns (r: Run)
    requires !Terminates(item)
    ensures r == Step(run, item, script, id, hasTts)
  {
    var s := run.session;
    var request := RequestOf(item, script.frameDecodes);
    if request.FrameError? {
      return run.(slot := FreshSlot, log := run.log + InRoom(s.sink, [ResponseComplete(None, FrameErrorText)]));
    }
    var t := RunTurn(id, s.sink.Some?, script, s.completeSent, s.functionResultSent, hasTts);
    var session := s.(completeSent := t.completeSent, functionResultSent := t.functionResultSent);
    var log := run.log + InRoom(s.sink, t.events);
    var remote := run.remote + Tagged(id, [request.message] + t.sent);
    if t.ending == Crashed {
      return Run(session.(connected := false, stage := Stopped), FreshSlot, log, remote, Failed);
    }
    r := Run(session, FreshSlot.(done := true), log, remote, Serving);
  }

  /** A terminating item was dequeued: the task leaves its loop and clears
      `connected` and `task`. A pair with no message has already reset the
      slot. */
  function Stop(run: Run, item: Item): (r: Run)
    ensures r.status == Finished && !r.session.connected && !r.session.task && r.session.stage == Stopped
    ensures r.log == run.log && r.remote == run.remote
  {
    run.(session := run.session.(connected := false, task := false, stage := Stopped),
         slot := if item.Pair? then FreshSlot else run.slot,
         status := Finished)
  }

  /** Where the task's loop left off: the record it writes back and the
      items still queued. */
  datatype Drained = Drained(run: Run, rest: seq<Item>)

  /** The task's `while True` loop over `queue`, in FIFO order, given the
      remote's answers to successive messages. It stops at a terminating
      item, at a crash, when the queue is empty, or when no answer is left
      (the task would then be waiting on the remote service). The queue is
      passed apart from the record, which the loop does not otherwise read. */
  function Drain(run: Run, queue: seq<Item>, scripts: seq<Script>, id: SessionId, hasTts: bool): Drained
    decreases |queue|
  {
    if run.status != Serving || queue == [] then Drained(run, queue)
    else if Terminates(queue[0]) then Drained(Stop(run, queue[0]), queue[1..])
    else if scripts == [] then Drained(run, queue)
    else Drain(Step(run, queue[0], scripts[0], id, hasTts), queue[1..], scripts[1..], id, hasTts)
  }

  /** One step emits only to the session's room and sends only under its
      id; it keeps the room. */
  lemma StepAppendsTagged(run: Run, item: Item, script: Script, id: SessionId, hasTts: bool)
    requires !Terminates(item)
    ensures Step(run, item, script, id, hasTts).session.sink == run.session.sink
    ensures AddedTagged(run, Step(run, item, script, id, hasTts), run.session.sink, id)
  {
    var s := run.session;
    match RequestOf(item, script.frameDecodes)
    case FrameError =>
      var added := InRoom(s.sink, [ResponseComplete(None, FrameErrorText)]);
      assert Step(run, item, script, id, hasTts) == run.(slot := FreshSlot, log := run.log + added);
      AppendedEntries(run.log, added);
    case Send(message) =>
      var t := Turn(AsWritten, id, s.sink.Some?, script, s.completeSent, s.functionResultSent, hasTts);
      assert Step(run, item, script, id, hasTts) == Respond(run, message, t, id);
      AppendedEntries(run.log, InRoom(s.sink, t.events));
      AppendedEntries(run.remote, Tagged(id, [message] + t.sent));
  }

  lemma ConcatTail<T>(a: seq<T>, b: seq<T>)
    requires a != []
    ensures (a + b)[0] == a[0] && (a + b)[1..] == a[1..] + b
  {
  }

  lemma AppendedEntries<T>(a: seq<T>, b: seq<T>)
    ensures forall k :: |a| <= k < |a + b| ==> (a + b)[k] == b[k - |a|]
  {
  }

  /** The task only adds to what was emitted and sent. */
  lemma {:induction false} DrainAppendsOnly(run: Run, queue: seq<Item>, scripts: seq<Script>, id: SessionId, hasTts: bool)
    ensures run.log <= Drain(run, queue, scripts, id, hasTts).run.log
    ensures run.remote <= Drain(run, queue, scripts, id, hasTts).run.remote
    decreases |queue|
  {
    if run.status == Serving && queue != [] && !Terminates(queue[0]) && scripts != [] {
      var next := Step(run, queue[0], scripts[0], id, hasTts);
      var d := Drain(next, queue[1..], scripts[1..], id, hasTts);
      DrainAppendsOnly(next, queue[1..], scripts[1..], id, hasTts);
      PrefixTransitive(run.log, next.log, d.run.log);
      PrefixTransitive(run.remote, next.remote, d.run.remote);
    }
  }

  /** Everything `after` emitted beyond `before` went to `sink`, and
      everything it sent beyond `before` carries `id`. */
  ghost predicate AddedTagged(before: Run, after: Run, sink: Option<Room>, id: SessionId)
  {
    && (forall k :: |before.log| <= k < |after.log| ==> sink == Some(after.log[k].room))
    && (forall k :: |before.remote| <= k < |after.remote| ==> after.remote[k].session == id)
  }

  lemma AddedTaggedTransitive(a: Run, b: Run, c: Run, sink: Option<Room>, id: SessionId)
    requires a.log <= b.log <= c.log && a.remote <= b.remote <= c.remote
    requires AddedTagged(a, b, sink, id) && AddedTagged(b, c, sink, id)
    ensures AddedTagged(a, c, sink, id)
  {
    forall k | |a.log| <= k < |b.log|
      ensures c.log[k] == b.log[k]
    {
    }
    forall k | |a.remote| <= k < |c.remote|
      ensures c.remote[k].session == id
    {
      if k < |b.remote| {
        assert c.remote[k] == b.remote[k];
      }
    }
  }

  /** Every event the task emits goes to the session's room, and every
      message it sends is tagged with the session's id. */
  lemma {:induction false} DrainTagged(run: Run, queue: seq<Item>, scripts: seq<Script>, id: SessionId, hasTts: bool)
    ensures Drain(run, queue, scripts, id, hasTts).run.session.sink == run.session.sink
    ensures AddedTagged(run, Drain(run, queue, scripts, id, hasTts).run, run.session.sink, id)
    decreases |queue|
  {
    var d := Drain(run, queue, scripts, id, hasTts);
    if run.status == Serving && queue != [] && !Terminates(queue[0]) && scripts != [] {
      var next := Step(run, queue[0], scripts[0], id, hasTts);
      assert d == Drain(next, queue[1..], scripts[1..], id, hasTts);
      StepAppendsTagged(run, queue[0], scripts[0], id, hasTts);
      DrainTagged(next, queue[1..], scripts[1..], id, hasTts);
      DrainAppendsOnly(next, queue[1..], scripts[1..], id, hasTts);
      AddedTaggedTransitive(run, next, d.run, run.session.sink, id);
    } else if run.status == Serving && queue != [] && Terminates(queue[0]) {
      assert d.run == Stop(run, queue[0]);
    }
  }

  /** The task takes items from the front of the queue only: what it leaves
      queued is a suffix of the queue. */
  lemma {:induction false} DrainLeavesSuffix(run: Run, queue: seq<Item>, scripts: seq<Script>, id: SessionId, hasTts: bool)
    ensures |Drain(run, queue, scripts, id, hasTts).rest| <= |queue|
    ensures Drain(run, queue, scripts, id, hasTts).rest == queue[|queue| - |Drain(run, queue, scripts, id, hasTts).rest|..]
    decreases |queue|
  {
    if run.status == Serving && queue != [] && !Terminates(queue[0]) && scripts != [] {
      var next := Step(run, queue[0], scripts[0], id, hasTts);
      var d := Drain(next, queue[1..], scripts[1..], id, hasTts);
      DrainLeavesSuffix(next, queue[1..], scripts[1..], id, hasTts);
      assert queue[1..][|queue| - 1 - |d.rest|..] == queue[|queue| - |d.rest|..];
    }
  }

  lemma PrefixTransitive<T>(a: seq<T>, b: seq<T>, c: seq<T>)
    requires a <= b && b <= c
    ensures a <= c
  {
    assert c[..|a|] == c[..|b|][..|a|];
  }

  /** Messages are answered in queue order: when the head of the queue is a
      message that is sent, it is the first thing the task sends. */
  lemma DrainSendsHeadFirst(run: Run, queue: seq<Item>, scripts: seq<Script>, id: SessionId, hasTts: bool)
    requires run.status == Serving && queue != [] && scripts != []
    requires !Terminates(queue[0])
    requires RequestOf(queue[0], scripts[0].frameDecodes).Send?
    ensures |run.remote| < |Drain(run, queue, scripts, id, hasTts).run.remote|
    ensures Drain(run, queue, scripts, id, hasTts).run.remote[|run.remote|]
            == Sent(id, RequestOf(queue[0], scripts[0].frameDecodes).message)
  {
    var next := Step(run, queue[0], scripts[0], id, hasTts);
    assert next.remote[|run.remote|] == Sent(id, RequestOf(queue[0], scripts[0].frameDecodes).message);
    DrainAppendsOnly(next, queue[1..], scripts[1..], id, hasTts);
  }

  /** Draining is sequential: with no terminating item in `q1` and an
      answer for each of its messages, draining `q1 + q2` drains `q1` with
      the first answers, then `q2` from where that left off with the rest;
      whatever `q1` leaves (after a crash) stays queued ahead of `q2`'s. */
  lemma {:induction false} DrainConcat(run: Run, q1: seq<Item>, q2: seq<Item>,
                                      scripts: seq<Script>, id: SessionId, hasTts: bool)
    requires forall k :: 0 <= k < |q1| ==> !Terminates(q1[k])
    requires |scripts| >= |q1|
    ensures var d1 := Drain(run, q1, scripts[..|q1|], id, hasTts);
            var d2 := Drain(d1.run, q2, scripts[|q1|..], id, hasTts);
            Drain(run, q1 + q2, scripts, id, hasTts) == Drained(d2.run, d1.rest + d2.rest)
    decreases |q1|
  {
    if run.status != Serving {
    } else if q1 == [] {
      assert q1 + q2 == q2 && scripts[0..] == scripts;
    } else {
      var next := Step(run, q1[0], scripts[0], id, hasTts);
      var s1 := scripts[..|q1|];
      ConcatTail(q1, q2);
      assert Drain(run, q1 + q2, scripts, id, hasTts) == Drain(next, q1[1..] + q2, scripts[1..], id, hasTts);
      assert s1[0] == scripts[0] && s1[1..] == scripts[1..][..|q1| - 1];
      assert Drain(run, q1, s1, id, hasTts) == Drain(next, q1[1..], scripts[1..][..|q1| - 1], id, hasTts);
      assert scripts[|q1|..] == scripts[1..][|q1| - 1..];
      DrainConcat(next, q1[1..], q2, scripts[1..], id, hasTts);
    }
  }

  /** Whatever follows a terminating item is never processed: draining
      `q1 + [t] + q2` does exactly what draining `q1 + [t]` does, and leaves
      `q2` queued after whatever that leaves. */
  lemma {:induction false} DrainIgnoresAfterTerminate(run: Run, q1: seq<Item>, t: Item, q2: seq<Item>,
                                                     scripts: seq<Script>, id: SessionId, hasTts: bool)
    requires Terminates(t)
    ensures var d := Drain(run, q1 + [t], scripts, id, hasTts);
            Drain(run, q1 + [t] + q2, scripts, id, hasTts) == Drained(d.run, d.rest + q2)
    decreases |q1|
  {
    var long := q1 + [t] + q2;
    if run.status != Serving {
    } else if q1 == [] {
      assert long[0] == t && long[1..] == q2;
    } else {
      assert long[0] == q1[0] && (q1 + [t])[0] == q1[0];
      assert long[1..] == q1[1..] + [t] + q2 && (q1 + [t])[1..] == q1[1..] + [t];
      if !Terminates(q1[0]) && scripts != [] {
        DrainIgnoresAfterTerminate(Step(run, q1[0], scripts[0], id, hasTts), q1[1..], t, q2, scripts[1..], id, hasTts);
      } else if Terminates(q1[0]) {
        assert q1[1..] + [t] + q2 == (q1[1..] + [t]) + q2;
      }
    }
  }

  /** With an answer for every message ahead of it, a queued terminating item
      ends the task: it finishes with `task` cleared, at `t` (leaving nothing
      queued) unless a terminating item comes earlier, or a turn crashed
      before; either way `connected` is cleared. */
  lemma {:induction false} DrainReachesTerminate(run: Run, q1: seq<Item>, t: Item,
                                                scripts: seq<Script>, id: SessionId, hasTts: bool)
    requires Terminates(t) && run.status == Serving
    requires |scripts| >= |q1|
    ensures var d := Drain(run, q1 + [t], scripts, id, hasTts);
            && d.run.status != Serving
            && !d.run.session.connected
            && d.run.session.stage == Stopped
            && (d.run.status == Finished ==> !d.run.session.task)
            && (d.run.status == Finished && (forall k :: 0 <= k < |q1| ==> !Terminates(q1[k])) ==> d.rest == [])
    decreases |q1|
  {
    var queue := q1 + [t];
    if q1 == [] {
      assert queue[0] == t && queue[1..] == [];
    } else if Terminates(q1[0]) {
      assert queue[0] == q1[0];
    } else {
      assert queue[0] == q1[0] && queue[1..] == q1[1..] + [t];
      var next := Step(run, q1[0], scripts[0], id, hasTts);
      if next.status == Serving {
        DrainReachesTerminate(next, q1[1..], t, scripts[1..], id, hasTts);
      }
    }
  }

  /** The response slot `clear_response` leaves: reset to the cleared record
      only when the slot is done. */
  function Cleared(responses: map<SessionId, Slot>, id: SessionId): map<SessionId, Slot> {
    if id in responses && responses[id].done then responses[id := ClearedSlot] else responses
  }

  /** Clearing is idempotent, clears only a done slot, keeps the keys, and
      leaves a slot that is not done, marked retrieved. */
  lemma ClearedProperties(responses: map<SessionId, Slot>, id: SessionId)
    ensures Cleared(Cleared(responses, id), id) == Cleared(responses, id)
    ensures Cleared(responses, id).Keys == responses.Keys
    ensures id in responses ==> !Cleared(responses, id)[id].done
    ensures id in responses && responses[id].done ==> Cleared(responses, id)[id].retrieved
    ensures id in responses && !responses[id].done ==> Cleared(responses, id) == responses
  {
  }

  /** The registry with one item appended to a session's queue. */
  function Enqueued(sessions: map<SessionId, Session>, id: SessionId, item: Item): map<SessionId, Session>
    requires id in sessions
  {
    sessions[id := sessions[id].(queue := sessions[id].queue + [item])]
  }

  lemma RemoveAfterUpdate<K, V>(m: map<K, V>, k: K, v: V)
    ensures m[k := v] - {k} == m - {k}
  {
  }

  // ------------------------------------------------------------ the service

  class LiveService {
    var activeSessions: map<SessionId, Session>
    var sessionResponses: map<SessionId, Slot>
    var log: seq<Emitted>
    var remote: seq<Sent>
    /** Whether a text-to-speech client was configured. */
    const hasTts: bool
    /** Whether `session_responses` was ever assigned; when it was not,
        `sessionResponses` stays empty and every access to it raises. */
    const responsesDefined: bool

    /** With the response map, every registered session has a response slot
        and vice versa. Without it, no session's task was ever started. */
    ghost predicate Valid()
      reads this
    {
      if responsesDefined then activeSessions.Keys == sessionResponses.Keys
      else sessionResponses == map[] && forall id :: id in activeSessions ==> activeSessions[id].stage == Stopped
    }

    /** `GeminiLiveService()`, with the text-to-speech set-up getting as far
        as `setup` says. */
    constructor (setup: TtsSetup)
      ensures Valid()
      ensures activeSessions == map[] && sessionResponses == map[] && log == [] && remote == []
      ensures hasTts <==> setup == TtsReady
      ensures responsesDefined <==> setup != FailedBeforeResponses
    {
      activeSessions := map[];
      sessionResponses := map[];
      log := [];
      remote := [];
      hasTts := setup == TtsReady;
      responsesDefined := setup != FailedBeforeResponses;
    }

    /** The constructor with `session_responses` assigned before the
        text-to-speech set-up, so that a failing set-up only loses speech. */
    constructor ResponsesFirst(setup: TtsSetup)
      ensures Valid()
      ensures activeSessions == map[] && sessionResponses == map[] && log == [] && remote == []
      ensures hasTts <==> setup == TtsReady
      ensures responsesDefined
    {
      activeSessions := map[];
      sessionResponses := map[];
      log := [];
      remote := [];
      hasTts := setup == TtsReady;
      responsesDefined := true;
    }

    /** `create_session(session_id)`; `id` is the caller's id or the uuid4
        the source generates. An existing entry is replaced. Without the
        response map the call raises after installing the entry and before
        starting its task. */
    method CreateSession(id: SessionId) returns (r: Outcome<SessionId>)
      requires Valid()
      modifies this
      ensures Valid()
      ensures responsesDefined ==> r == Returned(id)
      ensures responsesDefined ==> activeSessions == old(activeSessions)[id := NewSession]
      ensures responsesDefined ==> sessionResponses == old(sessionResponses)[id := FreshSlot]
      ensures !responsesDefined ==> r == AttributeError
      ensures !responsesDefined ==> activeSessions == old(activeSessions)[id := UnstartedSession]
      ensures !responsesDefined ==> sessionResponses == old(sessionResponses)
      ensures log == old(log) && remote == old(remote)
    {
      if !responsesDefined {
        activeSessions := activeSessions[id := UnstartedSession];
        return AttributeError;
      }
      activeSessions := activeSessions[id := NewSession];
      sessionResponses := sessionResponses[id := FreshSlot];
      r := Returned(id);
    }

    /** The background task's connection attempt finishing: on success the
        session is connected; on failure the task returns, leaving the entry
        registered but unconnected. */
    method Connect(id: SessionId, succeeded: bool)
      requires Valid()
      modifies this
      ensures Valid()
      ensures id in old(activeSessions) && old(activeSessions)[id].stage == Connecting ==>
                activeSessions == old(activeSessions)[id := old(activeSessions)[id].(
                  connected := succeeded, stage := if succeeded then Running else Stopped)]
      ensures !(id in old(activeSessions) && old(activeSessions)[id].stage == Connecting) ==>
                activeSessions == old(activeSessions)
      ensures sessionResponses == old(sessionResponses) && log == old(log) && remote == old(remote)
    {
      if id in activeSessions && activeSessions[id].stage == Connecting {
        var s := activeSessions[id];
        activeSessions := activeSessions[id := s.(connected := succeeded, stage := if succeeded then Running else Stopped)];
      }
    }

    /** `process_user_message(session_id, message)`: queues the text for an
        existing session, whether or not it is connected. */
    method ProcessUserMessage(id: SessionId, message: string) returns (r: Reply)
      requires Valid()
      modifies this
      ensures Valid()
      ensures id !in old(activeSessions) ==> r == ErrorReply("Session not found") && activeSessions == old(activeSessions)
      ensures id in old(activeSessions) ==> r == Processing && activeSessions == Enqueued(old(activeSessions), id, Bare(message))
      ensures sessionResponses == old(sessionResponses) && log == old(log) && remote == old(remote)
    {
      if id !in activeSessions {
        return ErrorReply("Session not found");
      }
      activeSessions := Enqueued(activeSessions, id, Bare(message));
      r := Processing;
    }

    /** `process_user_message_socketio(session_id, (message, frame), client_sid, socketio)`
        (a message that is not a pair has no frame): unknown and unconnected
        sessions get an 'error' event in the client's room and nothing is
        queued; otherwise the room is recorded as the session's sink and the
        pair is queued. */
    method ProcessUserMessageSocketio(id: SessionId, message: Option<string>, frame: Option<string>, clientSid: Room)
      returns (r: Option<Reply>)
      requires Valid()
      modifies this
      ensures Valid()
      ensures id !in old(activeSessions) ==>
                r.None? && log == old(log) + [Emitted(clientSid, ErrorEvent("Session not found"))]
                && activeSessions == old(activeSessions)
      ensures id in old(activeSessions) && !(old(activeSessions)[id].connected && old(activeSessions)[id].task) ==>
                r.None? && log == old(log) + [Emitted(clientSid, ErrorEvent("Session not connected"))]
                && activeSessions == old(activeSessions)
      ensures id in old(activeSessions) && old(activeSessions)[id].connected && old(activeSessions)[id].task ==>
                r == Some(Processing) && log == old(log)
                && activeSessions == old(activeSessions)[id := old(activeSessions)[id].(
                     sink := Some(clientSid), queue := old(activeSessions)[id].queue + [Pair(message, frame)])]
      ensures sessionResponses == old(sessionResponses) && remote == old(remote)
    {
      if id !in activeSessions {
        log := log + [Emitted(clientSid, ErrorEvent("Session not found"))];
        return None;
      }
      var s := activeSessions[id];
      if !s.connected || !s.task {
        log := log + [Emitted(clientSid, ErrorEvent("Session not connected"))];
        return None;
      }
      activeSessions := activeSessions[id := s.(sink := Some(clientSid), queue := s.queue + [Pair(message, frame)])];
      r := Some(Processing);
    }

    /** `handle_video_frame(session_id, frame_data_url)`: for a known session
        whose data URL has a comma and whose payload decodes (`decodes`), the
        image part is queued; every other case changes nothing. */
    method HandleVideoFrame(id: SessionId, frameDataUrl: string, decodes: bool)
      requires Valid()
      modifies this
      ensures Valid()
      ensures id in old(activeSessions) && ParseDataUrl(frameDataUrl).Some? && decodes ==>
                var parsed := ParseDataUrl(frameDataUrl).value;
                activeSessions == Enqueued(old(activeSessions), id, ImagePart(parsed.0, parsed.1))
      ensures !(id in old(activeSessions) && ParseDataUrl(frameDataUrl).Some? && decodes) ==>
                activeSessions == old(activeSessions)
      ensures sessionResponses == old(sessionResponses) && log == old(log) && remote == old(remote)
    {
      if id !in activeSessions {
        return;
      }
      var parsed := ParseDataUrl(frameDataUrl);
      if parsed.None? || !decodes {
        return;
      }
      activeSessions := Enqueued(activeSessions, id, ImagePart(parsed.value.0, parsed.value.1));
    }

    /** The background task serving a connected session's queue with the
        remote's answers `scripts`; it writes the session record (with what
        is still queued), the slot and the logs back. Nothing happens unless
        the task is running. */
    method ServeQueue(id: SessionId, scripts: seq<Script>)
      requires Valid()
      modifies this
      ensures Valid()
      ensures !(id in old(activeSessions) && old(activeSessions)[id].stage == Running) ==>
                activeSessions == old(activeSessions) && sessionResponses == old(sessionResponses)
                && log == old(log) && remote == old(remote)
      ensures id in old(activeSessions) && old(activeSessions)[id].stage == Running ==>
                var s := old(activeSessions)[id];
                var d := Drain(Run(s, old(sessionResponses)[id], old(log), old(remote), Serving), s.queue, scripts, id, hasTts);
                && activeSessions == old(activeSessions)[id := d.run.session.(queue := d.rest)]
                && sessionResponses == old(sessionResponses)[id := d.run.slot]
                && log == d.run.log && remote == d.run.remote
    {
      if id !in activeSessions || activeSessions[id].stage != Running {
        return;
      }
      var start := Run(activeSessions[id], sessionResponses[id], log, remote, Serving);
      ghost var goal := Drain(start, activeSessions[id].queue, scripts, id, hasTts);
      var run := start;
      var queue := activeSessions[id].queue;
      var rest := scripts;
      while run.status == Serving && queue != []
        invariant Drain(run, queue, rest, id, hasTts) == goal
        modifies {}
        decreases |queue|
      {
        var item := queue[0];
        if Terminates(item) {
          run := Stop(run, item);
        } else if rest == [] {
          break;
        } else {
          run := ProcessMessage(run, item, rest[0], id, hasTts);
          rest := rest[1..];
        }
        queue := queue[1..];
      }
      assert Drained(run, queue) == goal;
      activeSessions := activeSessions[id := run.session.(queue := queue)];
      sessionResponses := sessionResponses[id := run.slot];
      log := run.log;
      remote := run.remote;
    }

    /** `end_session(session_id)`: queues the sentinel, lets the task (if its
        handle is set) serve the queue with the answers `scripts`, then
        removes both entries, even when the task did not reach the sentinel
        (the source's timeout and cancellation). Without the response map
        the entry is removed and the call raises. */
    method EndSession(id: SessionId, scripts: seq<Script>) returns (raised: bool)
      requires Valid()
      modifies this
      ensures Valid()
      ensures raised <==> id in old(activeSessions) && !responsesDefined
      ensures id !in old(activeSessions) ==>
                activeSessions == old(activeSessions) && sessionResponses == old(sessionResponses)
                && log == old(log) && remote == old(remote)
      ensures id in old(activeSessions) ==>
                activeSessions == old(activeSessions) - {id} && sessionResponses == old(sessionResponses) - {id}
      ensures id in old(activeSessions) ==>
                var s := old(activeSessions)[id].(queue := old(activeSessions)[id].queue + [Terminate]);
                if s.task && s.stage == Running then
                  var d := Drain(Run(s, old(sessionResponses)[id], old(log), old(remote), Serving), s.queue, scripts, id, hasTts);
                  log == d.run.log && remote == d.run.remote
                else log == old(log) && remote == old(remote)
    {
      if id !in activeSessions {
        return false;
      }
      var s := activeSessions[id].(queue := activeSessions[id].queue + [Terminate]);
      ghost var sessions, responses := activeSessions, sessionResponses;
      activeSessions := activeSessions[id := s];
      if s.task {
        ServeQueue(id, scripts);
      }
      RemoveAfterUpdate(sessions, id, activeSessions[id]);
      if responsesDefined {
        RemoveAfterUpdate(responses, id, sessionResponses[id]);
      }
      activeSessions := activeSessions - {id};
      sessionResponses := sessionResponses - {id};
      raised := !responsesDefined;
    }

    /** `get_current_response(session_id)` */
    function CurrentResponse(id: SessionId): (r: Outcome<Option<Slot>>)
      reads this
      ensures r.AttributeError? <==> !responsesDefined
      ensures r.Returned? ==> (r.value.Some? <==> id in sessionResponses)
      ensures r.Returned? && r.value.Some? ==> r.value.value == sessionResponses[id]
      ensures Valid() && r.Returned? ==> (r.value.Some? <==> id in activeSessions)
    {
      if !responsesDefined then AttributeError
      else if id in sessionResponses then Returned(Some(sessionResponses[id]))
      else Returned(None)
    }

    /** `clear_response(session_id)`; it raises without the response map. */
    method ClearResponse(id: SessionId) returns (raised: bool)
      requires Valid()
      modifies this
      ensures Valid()
      ensures raised <==> !responsesDefined
      ensures sessionResponses == Cleared(old(sessionResponses), id)
      ensures activeSessions == old(activeSessions) && log == old(log) && remote == old(remote)
    {
      if !responsesDefined {
        return true;
      }
      if id in sessionResponses && sessionResponses[id].done {
        sessionResponses := sessionResponses[id := ClearedSlot];
      }
      raised := false;
    }
  }

  /** Without text-to-speech credentials the client fails at construction,
      `session_responses` is never assigned, and `create_session` raises
      after registering the session: the entry stays, with no task to serve
      its queue and no connection. */
  method TtsFailureStrandsSession(id: SessionId) returns (r: Outcome<SessionId>, entry: Option<Session>)
    ensures r == AttributeError
    ensures entry == Some(UnstartedSession)
    ensures !entry.value.task && !entry.value.connected && entry.value.stage == Stopped
  {
    var service := new LiveService(FailedBeforeResponses);
    r := service.CreateSession(id);
    entry := if id in service.activeSessions then Some(service.activeSessions[id]) else None;
  }

  /** With the response map assigned first, the same failure only loses
      speech: the session is created and its task started. */
  method TtsFailureCorrected(id: SessionId) returns (r: Outcome<SessionId>, entry: Option<Session>, hasTts: bool)
    ensures r == Returned(id)
    ensures entry == Some(NewSession)
    ensures entry.value.task && entry.value.stage == Connecting
    ensures !hasTts
  {
    var service := new LiveService.ResponsesFirst(FailedBeforeResponses);
    r := service.CreateSession(id);
    entry := if id in service.activeSessions then Some(service.activeSessions[id]) else None;
    hasTts := service.hasTts;
  }
}
