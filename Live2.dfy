/** The audio/video session registry of server/gemini_live2_service.py
    (`GeminiLive2Service`): a dictionary of session records whose `active`
    flag decides whether audio chunks and video frames are accepted. Ending
    a session only clears the flag; the entry stays. */
module Live2 {
  import opened PyValues

  type SessionId = string

  /** Identity of the Socket.IO server object a session emits through. */
  type Emitter = nat

  /** `asyncio.Queue(maxsize=10)` */
  const OutQueueMaxSize: nat := 10

  datatype Session = Session(
    audio: seq<seq<byte>>,
    active: bool,
    outQueue: seq<seq<byte>>,
    outQueueMaxSize: nat,
    socketio: Option<Emitter>,
    clientSid: Option<string>,
    streamTask: bool)

  /** The record `create_session` installs. */
  const FreshSession: Session := Session([], true, [], OutQueueMaxSize, None, None, false)

  /** The dictionaries the handlers return: `{"error": ...}` or `{"status": ...}`. */
  datatype Reply = Error(error: string) | Status(status: string)

  const InvalidSession: Reply := Error("Invalid session")

  /** `get_status()`; the source lists the active ids in insertion order,
      the model keeps them as a set. */
  datatype StatusReport = StatusReport(activeSessions: set<SessionId>, totalSessions: nat)

  /** The guard both media handlers share: the session is known and active. */
  predicate Accepts(sessions: map<SessionId, Session>, id: SessionId) {
    id in sessions && sessions[id].active
  }

  function ActiveIds(sessions: map<SessionId, Session>): (r: set<SessionId>)
    ensures r <= sessions.Keys
  {
    set id | id in sessions && sessions[id].active
  }

  /** The registry after `end_session(id)`. */
  function Ended(sessions: map<SessionId, Session>, id: SessionId): map<SessionId, Session> {
    if id in sessions then sessions[id := sessions[id].(active := false)] else sessions
  }

  /** The registry after an accepted `handle_audio_chunk(id, pcm)`. */
  function WithAudio(sessions: map<SessionId, Session>, id: SessionId, pcm: seq<byte>): map<SessionId, Session>
    requires id in sessions
  {
    sessions[id := sessions[id].(audio := sessions[id].audio + [pcm])]
  }

  class Live2Service {
    var sessions: map<SessionId, Session>

    constructor ()
      ensures sessions == map[]
    {
      sessions := map[];
    }

    /** `create_session()`; `id` is the uuid4 the source generates. */
    method CreateSession(id: SessionId) returns (r: SessionId)
      modifies this
      ensures r == id
      ensures sessions == old(sessions)[id := FreshSession]
    {
      sessions := sessions[id := FreshSession];
      r := id;
    }

    /** `set_socketio(session_id, socketio, client_sid)`: an unknown id is ignored. */
    method SetSocketio(id: SessionId, socketio: Emitter, clientSid: string)
      modifies this
      ensures id in old(sessions) ==>
                sessions == old(sessions)[id := old(sessions)[id].(socketio := Some(socketio), clientSid := Some(clientSid))]
      ensures id !in old(sessions) ==> sessions == old(sessions)
    {
      if id in sessions {
        sessions := sessions[id := sessions[id].(socketio := Some(socketio), clientSid := Some(clientSid))];
      }
    }

    /** `handle_audio_chunk(session_id, pcm_bytes)`: an unknown or ended
        session is refused and nothing changes; an active one gets exactly
        `pcm` appended to its audio list. */
    method HandleAudioChunk(id: SessionId, pcm: seq<byte>) returns (r: Reply)
      modifies this
      ensures Accepts(old(sessions), id) ==>
                r == Status("audio chunk received") && sessions == WithAudio(old(sessions), id, pcm)
      ensures !Accepts(old(sessions), id) ==> r == InvalidSession && sessions == old(sessions)
    {
      if id !in sessions || !sessions[id].active {
        return InvalidSession;
      }
      sessions := sessions[id := sessions[id].(audio := sessions[id].audio + [pcm])];
      r := Status("audio chunk received");
    }

    /** `handle_video_frame(session_id, frame_data_url)`, acceptance only: an
        unknown or ended session is refused; otherwise the frame counts as
        sent whether or not a remote session exists yet. */
    method HandleVideoFrame(id: SessionId, frameDataUrl: string) returns (r: Reply)
      ensures r.Error? <==> !Accepts(sessions, id)
      ensures r.Error? ==> r == InvalidSession
      ensures r.Status? ==> r.status == "video frame sent"
    {
      if id !in sessions || !sessions[id].active {
        return InvalidSession;
      }
      r := Status("video frame sent");
    }

    /** `end_session(session_id)`: True for every known id, however often it
        is called, and the entry is kept with `active` cleared. */
    method EndSession(id: SessionId) returns (ok: bool)
      modifies this
      ensures ok <==> id in old(sessions)
      ensures sessions == Ended(old(sessions), id)
    {
      if id in sessions {
        sessions := sessions[id := sessions[id].(active := false)];
        return true;
      }
      return false;
    }

    /** `get_status()`: the ids whose flag is set, and the number of entries
        whether active or ended. */
    method GetStatus() returns (s: StatusReport)
      ensures forall id :: id in s.activeSessions <==> Accepts(sessions, id)
      ensures s.totalSessions == |sessions|
    {
      s := StatusReport(ActiveIds(sessions), |sessions|);
    }

    /** `_reset()`: the registry becomes empty. */
    method Reset()
      modifies this
      ensures sessions == map[]
    {
      sessions := map[];
    }
  }

  /** Ending keeps every entry and flips exactly one flag: the active ids
      lose `id` and nothing else, and the total does not change. */
  lemma EndedStatus(sessions: map<SessionId, Session>, id: SessionId)
    ensures Ended(sessions, id).Keys == sessions.Keys
    ensures |Ended(sessions, id)| == |sessions|
    ensures ActiveIds(Ended(sessions, id)) == ActiveIds(sessions) - {id}
  {
    var e := Ended(sessions, id);
    assert e.Keys == sessions.Keys;
    assert |e| == |e.Keys| == |sessions.Keys| == |sessions|;
  }

  /** After `end_session` both media handlers refuse the session, whatever
      state it was in. */
  lemma EndedRefusesMedia(sessions: map<SessionId, Session>, id: SessionId)
    requires id in sessions
    ensures !Accepts(Ended(sessions, id), id)
    ensures id in Ended(sessions, id)
  {
  }

  /** A second `end_session` changes nothing and still finds the id. */
  lemma EndedIdempotent(sessions: map<SessionId, Session>, id: SessionId)
    ensures Ended(Ended(sessions, id), id) == Ended(sessions, id)
    ensures id in sessions ==> id in Ended(sessions, id)
  {
  }

  /** Creating a session with a fresh id adds it to the active ids and adds
      one to the total; no other entry changes. */
  lemma CreatedStatus(sessions: map<SessionId, Session>, id: SessionId)
    requires id !in sessions
    ensures ActiveIds(sessions[id := FreshSession]) == ActiveIds(sessions) + {id}
    ensures |sessions[id := FreshSession]| == |sessions| + 1
    ensures forall k :: k in sessions ==> sessions[id := FreshSession][k] == sessions[k]
  {
    var m := sessions[id := FreshSession];
    assert m.Keys == sessions.Keys + {id};
  }

  /** An accepted audio chunk touches only that session's audio list: the
      status summary and every other entry stay as they were. */
  lemma AudioKeepsStatus(sessions: map<SessionId, Session>, id: SessionId, pcm: seq<byte>)
    requires Accepts(sessions, id)
    ensures ActiveIds(WithAudio(sessions, id, pcm)) == ActiveIds(sessions)
    ensures |WithAudio(sessions, id, pcm)| == |sessions|
    ensures WithAudio(sessions, id, pcm)[id].audio == sessions[id].audio + [pcm]
    ensures forall k :: k in sessions && k != id ==> WithAudio(sessions, id, pcm)[k] == sessions[k]
  {
    var m := WithAudio(sessions, id, pcm);
    assert m.Keys == sessions.Keys;
  }
}
