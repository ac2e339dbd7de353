/** The NATS side of a session (src/nats/client.rs): the subjects it
    publishes and subscribes on and the audio-frame envelope it builds.
    The connection, publishing and subscribing are I/O; their failures are
    parameters and the message bus itself is outside the model. */
module Nats {
  import opened Wrappers
  import opened Audio
  import Base64

  /** An unsigned 32-bit integer (`u32`). */
  type U32 = x: int | 0 <= x < 0x1_0000_0000

  const AudioSubjectPrefix: string := "audio.frame.meeting-"

  /** The only subject transcripts are received on; `>` is the NATS
      wildcard for one or more trailing tokens. */
  const TranscriptSubject: string := "stt.text.>"

  const ConnectError: string := "Failed to connect to NATS"
  const PublishError: string := "Failed to publish audio frame"
  const SubscribeError: string := "Failed to subscribe to transcripts"

  /** A connected client; it remembers the meeting it publishes for. */
  datatype NatsClient = NatsClient(meetingId: string)

  /** The JSON envelope of one audio frame (`AudioFrameMessage`). The
      timestamp is the wall-clock time of publishing, passed in. */
  datatype AudioFrameMessage = AudioFrameMessage(
    sessionId: string,
    sequence: U32,
    pcm: string,
    sampleRate: nat,
    channels: nat,
    timestamp: string,
    finalFrame: bool)

  /** A message handed to the bus: its subject and its envelope. */
  datatype Publication = Publication(subject: string, message: AudioFrameMessage)

  // ---------------------------------------------------------------------
  // Subjects
  // ---------------------------------------------------------------------

  /** `format!("audio.frame.meeting-{}", meeting_id)`. */
  function AudioFrameSubject(meetingId: string): (s: string)
    ensures |s| == |AudioSubjectPrefix| + |meetingId|
    ensures s[..|AudioSubjectPrefix|] == AudioSubjectPrefix
    ensures s[|AudioSubjectPrefix|..] == meetingId
  {
    AudioSubjectPrefix + meetingId
  }

  /** The meeting an audio-frame subject belongs to, if it is one. */
  function MeetingOfSubject(s: string): Option<string>
  {
    if |s| >= |AudioSubjectPrefix| && s[..|AudioSubjectPrefix|] == AudioSubjectPrefix
    then Some(s[|AudioSubjectPrefix|..])
    else None
  }

  /** The subject names its meeting, so two meetings never share one. */
  lemma SubjectRoundTrip(meetingId: string)
    ensures MeetingOfSubject(AudioFrameSubject(meetingId)) == Some(meetingId)
  {
  }

  lemma {:induction false} SubjectInjective(a: string, b: string)
    ensures AudioFrameSubject(a) == AudioFrameSubject(b) <==> a == b
  {
    if AudioFrameSubject(a) == AudioFrameSubject(b) {
      SubjectRoundTrip(a);
      SubjectRoundTrip(b);
    }
  }

  /** The `.`-separated tokens of a subject, `cur` being the token read so far. */
  function SplitFrom(s: string, cur: string): (ts: seq<string>)
    ensures |ts| >= 1
    decreases |s|
  {
    if |s| == 0 then [cur]
    else if s[0] == '.' then [cur] + SplitFrom(s[1..], "")
    else SplitFrom(s[1..], cur + [s[0]])
  }

  function Tokens(s: string): seq<string>
  {
    SplitFrom(s, "")
  }

  /** NATS subject matching of a subscription's tokens against a subject's:
      `*` matches one token, `>` one or more trailing tokens. */
  function TokensMatch(pattern: seq<string>, subject: seq<string>): bool
    decreases |pattern|
  {
    if |pattern| == 0 then |subject| == 0
    else if pattern[0] == ">" then |pattern| == 1 && |subject| >= 1
    else |subject| > 0 && (pattern[0] == "*" || pattern[0] == subject[0])
         && TokensMatch(pattern[1..], subject[1..])
  }

  predicate SubjectMatches(pattern: string, subject: string)
  {
    TokensMatch(Tokens(pattern), Tokens(subject))
  }

  /** A subject whose first dot is at `k` splits there. */
  lemma {:induction false} SplitFirst(s: string, cur: string, k: nat)
    requires k < |s| && s[k] == '.'
    requires forall j :: 0 <= j < k ==> s[j] != '.'
    ensures SplitFrom(s, cur) == [cur + s[..k]] + SplitFrom(s[k + 1..], "")
    decreases k
  {
    if k > 0 {
      SplitFirst(s[1..], cur + [s[0]], k - 1);
      assert cur + [s[0]] + s[1..][..k - 1] == cur + s[..k];
      assert s[1..][k..] == s[k + 1..];
    } else {
      assert cur + s[..0] == cur;
    }
  }

  /** A subject without dots is a single token. */
  lemma {:induction false} SplitNoDot(s: string, cur: string)
    requires forall j :: 0 <= j < |s| ==> s[j] != '.'
    ensures SplitFrom(s, cur) == [cur + s]
    decreases |s|
  {
    if |s| > 0 {
      SplitNoDot(s[1..], cur + [s[0]]);
      assert cur + [s[0]] + s[1..] == cur + s;
    } else {
      assert cur + s == cur;
    }
  }

  lemma TailTokens()
    ensures SplitFrom("text.>", "") == ["text", ">"]
  {
    SplitFirst("text.>", "", 4);
    assert "text.>"[..4] == "text" && "text.>"[5..] == ">";
    SplitNoDot(">", "");
    assert "" + "text" == "text" && "" + ">" == ">";
  }

  /** The tokens of `"stt.text.>"` are `stt`, `text` and `>`. */
  lemma TranscriptTokens()
    ensures Tokens(TranscriptSubject) == ["stt", "text", ">"]
  {
    var s := TranscriptSubject;
    SplitFirst(s, "", 3);
    assert s[..3] == "stt" && s[4..] == "text.>";
    TailTokens();
    assert "" + "stt" == "stt";
  }

  /** The transcript subscription receives exactly the subjects of three or
      more tokens that begin with `stt.text`: both "stt.text.partial" and
      "stt.text.final", whichever session they belong to. */
  lemma TranscriptSubscriptionMatches(subject: string)
    ensures SubjectMatches(TranscriptSubject, subject) <==>
      (|Tokens(subject)| >= 3 && Tokens(subject)[0] == "stt" && Tokens(subject)[1] == "text")
  {
    TranscriptTokens();
    var t := Tokens(subject);
    var p := ["stt", "text", ">"];
    assert p[1..] == ["text", ">"] && p[1..][1..] == [">"];
  }

  /** The session's own audio subjects never reach its transcript subscription. */
  lemma AudioNotEchoed(meetingId: string)
    ensures !SubjectMatches(TranscriptSubject, AudioFrameSubject(meetingId))
  {
    var s := AudioFrameSubject(meetingId);
    assert s[5] == '.';
    forall j | 0 <= j < 5 ensures s[j] != '.' {
      assert s[j] == "audio"[j];
    }
    SplitFirst(s, "", 5);
    assert s[..5] == "audio";
    assert Tokens(s)[0] == "audio";
    TranscriptSubscriptionMatches(s);
  }

  // ---------------------------------------------------------------------
  // Client operations
  // ---------------------------------------------------------------------

  /** `NatsClient::connect`: a client for the meeting, or the connection error. */
  function Connect(url: string, meetingId: string, connectFails: bool): (r: Result<NatsClient>)
    ensures r.Success? <==> !connectFails
    ensures r.Success? ==> r.value.meetingId == meetingId
    ensures r.Failure? ==> r.error == ConnectError
  {
    if connectFails then Failure(ConnectError) else Success(NatsClient(meetingId))
  }

  /** The envelope and subject `publish_audio_frame` hands to the bus. The
      client's meeting id is both the subject suffix and the session id, and
      the numeric fields are copied; `EnvelopePayload` states what the
      payload carries and `EnvelopeSubject` where it is published. */
  function AudioFrameEnvelope(client: NatsClient, pcmBytes: seq<U8>, sampleRate: nat,
                              channels: nat, chunkIndex: U32, isFinal: bool,
                              now: string): (p: Publication)
    ensures p.message.sessionId == client.meetingId
    ensures p.message.sequence == chunkIndex
    ensures p.message.sampleRate == sampleRate && p.message.channels == channels
    ensures p.message.finalFrame == isFinal && p.message.timestamp == now
  {
    Publication(
      AudioFrameSubject(client.meetingId),
      AudioFrameMessage(client.meetingId, chunkIndex, Base64.Encode(pcmBytes),
                        sampleRate, channels, now, isFinal))
  }

  /** An envelope is published on the subject of its client's meeting. */
  lemma EnvelopeSubject(client: NatsClient, pcmBytes: seq<U8>, sampleRate: nat,
                        channels: nat, chunkIndex: U32, isFinal: bool, now: string)
    ensures var p := AudioFrameEnvelope(client, pcmBytes, sampleRate, channels, chunkIndex, isFinal, now);
      MeetingOfSubject(p.subject) == Some(client.meetingId)
  {
    SubjectRoundTrip(client.meetingId);
  }

  /** The payload of an envelope is the base64 of the given bytes: decoding
      it gives the bytes back, it has four characters per started group of
      three bytes, and an empty payload (the final marker's) is "". */
  lemma EnvelopePayload(client: NatsClient, pcmBytes: seq<U8>, sampleRate: nat,
                        channels: nat, chunkIndex: U32, isFinal: bool, now: string)
    ensures var p := AudioFrameEnvelope(client, pcmBytes, sampleRate, channels, chunkIndex, isFinal, now);
      Base64.Decode(p.message.pcm) == Some(pcmBytes) &&
      |p.message.pcm| == 4 * ((|pcmBytes| + 2) / 3) &&
      (pcmBytes == [] <==> p.message.pcm == "")
  {
    Base64.DecodeEncode(pcmBytes);
    Base64.EncodeLength(pcmBytes);
  }

  /** `publish_audio_frame`: the publication, or the bus error. */
  function PublishAudioFrame(client: NatsClient, pcmBytes: seq<U8>, sampleRate: nat,
                             channels: nat, chunkIndex: U32, isFinal: bool,
                             now: string, publishFails: bool): (r: Result<Publication>)
    ensures r.Success? <==> !publishFails
    ensures r.Success? ==> r.value == AudioFrameEnvelope(client, pcmBytes, sampleRate, channels, chunkIndex, isFinal, now)
    ensures r.Failure? ==> r.error == PublishError
  {
    if publishFails then Failure(PublishError)
    else Success(AudioFrameEnvelope(client, pcmBytes, sampleRate, channels, chunkIndex, isFinal, now))
  }

  /** `subscribe_transcripts`: the subject subscribed to, or the bus error.
      The subject never depends on the client's meeting. */
  function SubscribeTranscripts(client: NatsClient, subscribeFails: bool): (r: Result<string>)
    ensures r.Success? <==> !subscribeFails
    ensures r.Success? ==> r.value == TranscriptSubject
    ensures r.Failure? ==> r.error == SubscribeError
  {
    if subscribeFails then Failure(SubscribeError) else Success(TranscriptSubject)
  }

  /** The envelope of the final marker of a stream carries no PCM (the
      final-marker envelope of tests/nats_tests.rs:30-49). */
  lemma FinalMarkerEnvelope(client: NatsClient, sampleRate: nat, channels: nat,
                            sequence: U32, now: string)
    ensures var p := AudioFrameEnvelope(client, [], sampleRate, channels, sequence, true, now);
      p.message.pcm == "" && p.message.finalFrame && p.message.sequence == sequence
  {
    EnvelopePayload(client, [], sampleRate, channels, sequence, true, now);
  }

  /** The subject of meeting "test-meeting". */
  lemma TestMeetingSubject()
    ensures AudioFrameSubject("test-meeting") == "audio.frame.meeting-test-meeting"
  {
  }

  /** The envelope of tests/nats_tests.rs:5-28: a 100-byte zero payload of
      "test-meeting" at 16000 Hz mono, sequence 0, not final. */
  lemma TestMeetingEnvelope(now: string)
    ensures var zeros := seq(100, _ => 0);
      var p := AudioFrameEnvelope(NatsClient("test-meeting"), zeros, 16000, 1, 0, false, now);
      p.subject == "audio.frame.meeting-test-meeting" &&
      p.message.sessionId == "test-meeting" && p.message.sampleRate == 16000 &&
      p.message.channels == 1 && p.message.sequence == 0 && !p.message.finalFrame
  {
    TestMeetingSubject();
  }

  /** The payload of that envelope: 136 characters that decode back to the
      100 bytes (any 100 bytes, the zeros of the test among them). */
  lemma TestMeetingPayload(bytes: seq<U8>, now: string)
    requires |bytes| == 100
    ensures var p := AudioFrameEnvelope(NatsClient("test-meeting"), bytes, 16000, 1, 0, false, now);
      |p.message.pcm| == 136 && Base64.Decode(p.message.pcm) == Some(bytes)
  {
    EnvelopePayload(NatsClient("test-meeting"), bytes, 16000, 1, 0, false, now);
  }
}
