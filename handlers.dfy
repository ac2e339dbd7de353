/** The HTTP handlers of the service and the registry of running sessions
    they share: `start_recording`, `stop_recording`, `get_meeting_status` and
    `get_meeting_transcript`. Requests and responses are the values the JSON
    bodies carry; the status codes are kept as an enumeration. */
module Handlers {
  import opened Wrappers
  import Nats
  import Session
  import Audio

  /** `StartRecordingRequest`. The title is accepted and never used. */
  datatype StartRecordingRequest = StartRecordingRequest(
    meetingId: Option<string>,
    title: Option<string>,
    chunkDurationSecs: Option<nat>)

  /** The HTTP status codes the handlers answer with. */
  datatype Status = Ok | Conflict | NotFound | InternalServerError

  function Code(s: Status): nat
  {
    match s
    case Ok => 200
    case Conflict => 409
    case NotFound => 404
    case InternalServerError => 500
  }

  /** The JSON bodies: `ErrorResponse`, `StartRecordingResponse`,
      `StopRecordingResponse`, a bare `SessionStats` and a transcript. */
  datatype Body =
    | Error(error: string)
    | Started(meetingId: string, status: string, message: string)
    | Stopped(meetingId: string, status: string, message: string, stats: Session.SessionStats)
    | Stats(stats: Session.SessionStats)
    | Transcript(segments: seq<Session.TranscriptSegment>)

  datatype Response = Response(status: Status, body: Body)

  /** The meeting id of a start request: the one given, or `meeting-` and a
      fresh uuid. */
  function MeetingIdOf(req: StartRecordingRequest, uuid: string): (id: string)
    ensures req.meetingId.Some? ==> id == req.meetingId.value
    ensures req.meetingId.None? ==> id == "meeting-" + uuid
  {
    match req.meetingId
    case Some(id) => id
    case None => "meeting-" + uuid
  }

  /** The configuration `start_recording` gives a new session: 16 kHz mono
      for the speech recogniser, the local bus, and five-minute chunks
      unless the request says otherwise. */
  function StartConfig(req: StartRecordingRequest, uuid: string): (c: Session.SessionConfig)
    ensures c.sessionId == MeetingIdOf(req, uuid)
    ensures c.chunkDurationSecs == (if req.chunkDurationSecs.Some? then req.chunkDurationSecs.value else 300)
    ensures c.sampleRate == 16000 && c.channels == 1 && c.natsUrl == Session.DefaultNatsUrl
  {
    Session.SessionConfig(MeetingIdOf(req, uuid),
                          match req.chunkDurationSecs { case Some(d) => d case None => 300 },
                          16000, 1, Session.DefaultNatsUrl)
  }

  /** A request without an id or a chunk duration gets exactly the
      session defaults. */
  lemma StartConfigDefaults(uuid: string)
    ensures StartConfig(StartRecordingRequest(None, None, None), uuid) == Session.DefaultConfig(uuid)
  {
  }

  /** Any audio frame can be downsampled to the 16 kHz a started session
      asks for. */
  lemma StartConfigDivisible(req: StartRecordingRequest, uuid: string, frames: seq<Audio.AudioFrame>)
    ensures Session.AllDivisible(frames, StartConfig(req, uuid).sampleRate)
  {
  }

  function ConflictMessage(id: string): string
  {
    "Meeting " + id + " is already recording"
  }

  function NotFoundMessage(id: string): string
  {
    "Meeting " + id + " not found"
  }

  /** The error text of a failed `start` on a fresh session, if it fails. */
  function StartError(env: Session.StartEnv): Option<string>
  {
    if env.backendCreateFails then Some(Session.BackendCreateError)
    else if env.backendStartFails then Some(Session.BackendStartError)
    else if env.subscribeFails then Some(Nats.SubscribeError)
    else None
  }

  /** The shared state: the sessions currently recording, by meeting id. */
  class AppState {
    var sessions: map<string, Session.RecordingSession>

    /** Each session is registered under its own meeting id, publishes for
        that meeting, and is recording: a session enters the registry only
        after `start` succeeded and leaves it before `stop` runs. */
    ghost predicate Valid()
      reads this, sessions.Values
    {
      forall id :: id in sessions ==>
        sessions[id].config.sessionId == id && sessions[id].Valid() && sessions[id].isRecording
    }

    constructor()
      ensures Valid() && sessions == map[]
    {
      sessions := map[];
    }

    /** `start_recording`. A busy id is a conflict; otherwise a session is
        created and started and, only if both succeed, registered. */
    method StartRecording(req: StartRecordingRequest, uuid: string, connectFails: bool,
                          env: Session.StartEnv) returns (resp: Response)
      requires Valid()
      modifies this
      ensures Valid()
      ensures var id := MeetingIdOf(req, uuid);
        id in old(sessions) ==>
          resp == Response(Conflict, Error(ConflictMessage(id))) && sessions == old(sessions)
      ensures var id := MeetingIdOf(req, uuid);
        id !in old(sessions) && connectFails ==>
          resp == Response(InternalServerError,
                           Error("Failed to create session: " + Session.ConnectContext)) &&
          sessions == old(sessions)
      ensures var id := MeetingIdOf(req, uuid);
        id !in old(sessions) && !connectFails && StartError(env).Some? ==>
          resp == Response(InternalServerError,
                           Error("Failed to start recording: " + StartError(env).value)) &&
          sessions == old(sessions)
      ensures var id := MeetingIdOf(req, uuid);
        id !in old(sessions) && !connectFails && StartError(env).None? ==>
          resp == Response(Ok, Started(id, "recording", "Recording started for meeting " + id)) &&
          id in sessions && sessions == old(sessions)[id := sessions[id]] &&
          fresh(sessions[id]) && sessions[id].config == StartConfig(req, uuid) &&
          sessions[id].StartedState(env, 0, 0, [], [])
    {
      var id := MeetingIdOf(req, uuid);
      if id in sessions {
        return Response(Conflict, Error(ConflictMessage(id)));
      }
      var config := StartConfig(req, uuid);
      var created := Session.RecordingSession.New(config, connectFails);
      if created.Failure? {
        return Response(InternalServerError, Error("Failed to create session: " + created.error));
      }
      var session := created.value;
      StartConfigDivisible(req, uuid, env.audio.frames);
      var started := session.Start(env);
      if started.Fail? {
        return Response(InternalServerError, Error("Failed to start recording: " + started.error));
      }
      sessions := sessions[id := session];
      return Response(Ok, Started(id, "recording", "Recording started for meeting " + id));
    }

    /** `stop_recording`. The id is taken out of the registry first, so it
        is gone afterwards in every case; the session, if there was one,
        is stopped and its final statistics returned. */
    method StopRecording(id: string) returns (resp: Response)
      requires Valid()
      modifies this, sessions.Values
      ensures Valid()
      ensures sessions == old(sessions) - {id} && id !in sessions
      ensures forall k :: k in sessions ==> unchanged(sessions[k])
      ensures id !in old(sessions) ==> resp == Response(NotFound, Error(NotFoundMessage(id)))
      ensures id in old(sessions) ==>
        var s := old(sessions)[id];
        !s.isRecording &&
        resp == Response(Ok, Stopped(id, "stopped", "Recording stopped",
                                     Session.SessionStats(false, old(s.chunksRecorded),
                                                          |old(s.transcriptSegments)|)))
    {
      if id !in sessions {
        return Response(NotFound, Error(NotFoundMessage(id)));
      }
      var session := sessions[id];
      sessions := sessions - {id};
      assert session !in sessions.Values;
      var stats := session.Stop();
      return Response(Ok, Stopped(id, "stopped", "Recording stopped", stats));
    }

    /** `get_meeting_status`: the statistics of a registered session. */
    function MeetingStatus(id: string): (resp: Response)
      reads this, sessions.Values
      ensures resp.status == Ok <==> id in sessions
      ensures id in sessions ==> resp.body == Stats(sessions[id].Stats())
      ensures id !in sessions ==> resp == Response(NotFound, Error(NotFoundMessage(id)))
    {
      if id in sessions then Response(Ok, Stats(sessions[id].Stats()))
      else Response(NotFound, Error(NotFoundMessage(id)))
    }

    /** `get_meeting_transcript`: the log of a registered session. */
    function MeetingTranscript(id: string): (resp: Response)
      reads this, sessions.Values
      ensures resp.status == Ok <==> id in sessions
      ensures id in sessions ==> resp.body == Transcript(sessions[id].transcriptSegments)
      ensures id !in sessions ==> resp == Response(NotFound, Error(NotFoundMessage(id)))
    {
      if id in sessions then Response(Ok, Transcript(sessions[id].Transcript()))
      else Response(NotFound, Error(NotFoundMessage(id)))
    }

    /** Every registered meeting reports itself as recording. */
    lemma RegisteredAreRecording(id: string)
      requires Valid() && id in sessions
      ensures MeetingStatus(id).status == Ok && MeetingStatus(id).body.stats.isRecording
    {
    }
  }
}
