/** A recording session (src/session/session.rs): the per-frame transforms
    applied before publishing, the little-endian PCM packing, the sequence
    and chunk counters of the audio pipeline, the `is_recording` flag, and
    the transcript log built from the STT messages addressed to the session.

    The two spawned tasks are run sequentially: receivers are finite input
    sequences, and the point at which a task observes `is_recording == false`
    is a parameter (`stopAt`: the number of receipts that still saw it true).
    Backend, subscription and publishing faults are parameters as well. */
module Session {
  import opened Wrappers
  import opened Audio
  import Base64
  import Nats

  // ---------------------------------------------------------------------
  // Configuration and statistics (src/session/config.rs, src/session/stats.rs)
  // ---------------------------------------------------------------------

  datatype SessionConfig = SessionConfig(
    sessionId: string,
    chunkDurationSecs: nat,
    sampleRate: nat,
    channels: nat,
    natsUrl: string)

  const DefaultNatsUrl: string := "nats://localhost:4222"

  /** `SessionConfig::default`, with the fresh uuid as a parameter. */
  function DefaultConfig(uuid: string): (c: SessionConfig)
    ensures c.sessionId == "meeting-" + uuid
    ensures c.chunkDurationSecs == 300 && c.sampleRate == 16000 && c.channels == 1
    ensures c.natsUrl == DefaultNatsUrl
  {
    SessionConfig("meeting-" + uuid, 300, 16000, 1, DefaultNatsUrl)
  }

  /** `SessionStats` without its clock-derived fields. */
  datatype SessionStats = SessionStats(
    isRecording: bool,
    chunksCount: nat,
    transcriptSegmentsCount: nat)

  /** The STT confidence, an `f32` carried through unchanged. */
  type Confidence = int

  /** A transcript message as parsed from the bus. */
  datatype TranscriptMessage = TranscriptMessage(
    sessionId: string,
    text: string,
    partial: bool,
    timestamp: string,
    confidence: Option<Confidence>)

  /** A received bus payload: a transcript message, or bytes that do not parse as one. */
  datatype Payload = Parsed(message: TranscriptMessage) | Unparsable

  /** `TranscriptSegment` without its receive-time timestamp. */
  datatype TranscriptSegment = TranscriptSegment(
    text: string,
    confidence: Option<Confidence>,
    partial: bool)

  const BackendCreateError: string := "Failed to create audio backend"
  const BackendStartError: string := "Failed to start audio capture"

  // ---------------------------------------------------------------------
  // Frame transforms
  // ---------------------------------------------------------------------

  /** `iter().step_by(r)`: the first element and then every `r`-th one. */
  function StepBy<T>(s: seq<T>, r: nat): seq<T>
    requires r > 0
    decreases |s|
  {
    if |s| == 0 then []
    else if |s| <= r then [s[0]]
    else [s[0]] + StepBy(s[r..], r)
  }

  lemma MulStep(k: int, r: int)
    ensures (k + 1) * r == k * r + r
  {
  }

  /** `StepBy` keeps the elements at indices `0, r, 2r, …`: exactly
      `ceil(|s| / r)` of them. */
  lemma {:induction false} StepByIndices<T>(s: seq<T>, r: nat)
    requires r > 0
    ensures var d := StepBy(s, r);
      (|s| == 0 <==> |d| == 0) &&
      (|d| > 0 ==> (|d| - 1) * r < |s| <= |d| * r) &&
      forall i :: 0 <= i < |d| ==> i * r < |s| && d[i] == s[i * r]
    decreases |s|
  {
    var d := StepBy(s, r);
    if |s| > r {
      var t := StepBy(s[r..], r);
      StepByIndices(s[r..], r);
      assert d == [s[0]] + t;
      MulStep(|t| - 1, r);
      MulStep(|t|, r);
      forall i | 0 <= i < |d|
        ensures i * r < |s| && d[i] == s[i * r]
      {
        if i > 0 {
          MulStep(i - 1, r);
          assert d[i] == t[i - 1];
        }
      }
    }
  }

  /** The `ceil(|s| / r)` count of `StepBy` as a quotient. */
  lemma StepByLength<T>(s: seq<T>, r: nat)
    requires r > 0
    ensures |StepBy(s, r)| == (|s| + r - 1) / r
  {
    StepByIndices(s, r);
    var n, l := |s|, |StepBy(s, r)|;
    if l > 0 {
      MulStep(l - 1, r);
      DivBetween(n + r - 1, r, l);
    }
  }

  /** `x / r == q` when `q * r <= x < (q + 1) * r`. */
  lemma DivBetween(x: int, r: int, q: int)
    requires r > 0 && q * r <= x < q * r + r
    ensures x / r == q
  {
    var d, m := x / r, x % r;
    assert x == d * r + m && 0 <= m < r;
    if d < q {
      MulMonotone(d + 1, q, r);
      MulStep(d, r);
    } else if d > q {
      MulMonotone(q + 1, d, r);
      MulStep(q, r);
    }
  }

  lemma MulMonotone(a: int, b: int, r: int)
    requires a <= b && r >= 0
    ensures a * r <= b * r
  {
  }

  /** A frame the pipeline can transform without dividing by zero: the
      target rate is non-zero, or the frame already has it. */
  predicate RateDivisible(frame: AudioFrame, targetRate: nat)
  {
    targetRate > 0 || frame.sampleRate == targetRate
  }

  /** `downsample_frame`: integer decimation by `sample_rate / target_rate`. */
  function DownsampleFrame(frame: AudioFrame, targetRate: nat): AudioFrame
    requires RateDivisible(frame, targetRate)
  {
    if frame.sampleRate == targetRate then frame
    else
      var ratio := frame.sampleRate / targetRate;
      if ratio <= 1 then frame
      else AudioFrame(StepBy(frame.samples, ratio), targetRate, frame.channels,
                      frame.timestampMs, frame.source)
  }

  /** `downsample_frame` leaves the frame alone at the target rate and when
      the integer ratio is at most 1 (it never upsamples); otherwise it keeps
      every `ratio`-th sample, `ceil(n / ratio)` of them, relabels the rate
      and keeps channels, timestamp and source. */
  lemma DownsampleSpec(frame: AudioFrame, targetRate: nat)
    requires RateDivisible(frame, targetRate)
    ensures var r := DownsampleFrame(frame, targetRate);
      if frame.sampleRate == targetRate || frame.sampleRate / targetRate <= 1 then r == frame
      else
        var ratio := frame.sampleRate / targetRate;
        r.sampleRate == targetRate && r.channels == frame.channels &&
        r.timestampMs == frame.timestampMs && r.source == frame.source &&
        |r.samples| == (|frame.samples| + ratio - 1) / ratio &&
        forall i :: 0 <= i < |r.samples| ==>
          i * ratio < |frame.samples| && r.samples[i] == frame.samples[i * ratio]
  {
    if frame.sampleRate != targetRate && frame.sampleRate / targetRate > 1 {
      var ratio := frame.sampleRate / targetRate;
      StepByIndices(frame.samples, ratio);
      StepByLength(frame.samples, ratio);
    }
  }

  /** The sum of each left/right pair, clamped to i16 and not averaged; an
      odd trailing sample is dropped (`chunks_exact(2)`). */
  function MonoSamples(s: seq<I16>): (m: seq<I16>)
    ensures |m| == |s| / 2
  {
    seq(|s| / 2, i requires 0 <= i < |s| / 2 => Clamp16(s[2 * i] as int + s[2 * i + 1]))
  }

  /** `stereo_to_mono` as a value: frames that are not stereo pass unchanged. */
  function StereoToMonoFrame(frame: AudioFrame): AudioFrame
  {
    if frame.channels != 2 then frame
    else AudioFrame(MonoSamples(frame.samples), frame.sampleRate, 1, frame.timestampMs, frame.source)
  }

  /** `stereo_to_mono`: the loop over `chunks_exact(2)` pushing clamped sums. */
  method StereoToMono(frame: AudioFrame) returns (out: AudioFrame)
    ensures out == StereoToMonoFrame(frame)
    ensures frame.channels == 2 ==>
      out.channels == 1 && |out.samples| == |frame.samples| / 2 &&
      forall i :: 0 <= i < |out.samples| ==>
        out.samples[i] == Clamp16(frame.samples[2 * i] as int + frame.samples[2 * i + 1])
    ensures frame.channels != 2 ==> out == frame
  {
    if frame.channels == 1 {
      return frame;
    }
    if frame.channels != 2 {
      return frame;
    }
    var s := frame.samples;
    var mono: seq<I16> := [];
    for i := 0 to |s| / 2
      invariant |mono| == i
      invariant forall j :: 0 <= j < i ==> mono[j] == Clamp16(s[2 * j] as int + s[2 * j + 1])
    {
      var left := s[2 * i];
      var right := s[2 * i + 1];
      mono := mono + [Clamp16(left as int + right)];
    }
    assert mono == MonoSamples(s);
    out := AudioFrame(mono, frame.sampleRate, 1, frame.timestampMs, frame.source);
  }

  /** Left and right channels interleaved, as a capture backend delivers them. */
  function Interleave(left: seq<I16>, right: seq<I16>): (s: seq<I16>)
    requires |left| == |right|
    ensures |s| == 2 * |left|
  {
    if |left| == 0 then [] else [left[0], right[0]] + Interleave(left[1..], right[1..])
  }

  /** Left sample `i` sits at `2i`, right sample `i` at `2i + 1`. */
  lemma {:induction false} InterleaveLayout(left: seq<I16>, right: seq<I16>, i: nat)
    requires |left| == |right| && i < |left|
    ensures Interleave(left, right)[2 * i] == left[i]
    ensures Interleave(left, right)[2 * i + 1] == right[i]
    decreases i
  {
    if i > 0 {
      InterleaveLayout(left[1..], right[1..], i - 1);
    }
  }

  /** Stereo to mono adds the two channels sample by sample. */
  lemma MonoOfInterleaved(left: seq<I16>, right: seq<I16>, i: nat)
    requires |left| == |right| && i < |left|
    ensures |MonoSamples(Interleave(left, right))| == |left|
    ensures MonoSamples(Interleave(left, right))[i] == Clamp16(left[i] as int + right[i])
  {
    InterleaveLayout(left, right, i);
  }

  /** The sum is not averaged: a signal on one channel alone keeps its full
      amplitude in the mono output. */
  lemma MonoKeepsLoneChannel(left: seq<I16>, right: seq<I16>)
    requires |left| == |right|
    requires forall i :: 0 <= i < |right| ==> right[i] == 0
    ensures MonoSamples(Interleave(left, right)) == left
  {
    var m := MonoSamples(Interleave(left, right));
    forall i | 0 <= i < |left| ensures m[i] == left[i] {
      MonoOfInterleaved(left, right, i);
    }
  }

  /** `process_frame`: decimate when the rate differs, then fold stereo to
      mono when mono is the target and the channel count differs. */
  function ProcessFrame(frame: AudioFrame, targetRate: nat, targetChannels: nat): AudioFrame
    requires RateDivisible(frame, targetRate)
  {
    var resampled := if frame.sampleRate != targetRate then DownsampleFrame(frame, targetRate) else frame;
    if resampled.channels != targetChannels && targetChannels == 1 then StereoToMonoFrame(resampled)
    else resampled
  }

  /** What `process_frame` does in each case: a frame already in the target
      format is untouched; decimation (a no-op at the target rate) always
      comes first; a mono target then folds the decimated frame, which
      changes it only when it is stereo; any target other than mono keeps
      the decimated frame's channels. */
  lemma ProcessFrameCases(frame: AudioFrame, targetRate: nat, targetChannels: nat)
    requires RateDivisible(frame, targetRate)
    ensures frame.sampleRate == targetRate && frame.channels == targetChannels ==>
      ProcessFrame(frame, targetRate, targetChannels) == frame
    ensures frame.sampleRate == targetRate && targetChannels == 1 && frame.channels == 2 ==>
      ProcessFrame(frame, targetRate, targetChannels) == StereoToMonoFrame(frame)
    ensures targetChannels == 1 && frame.channels != 1 ==>
      ProcessFrame(frame, targetRate, targetChannels) == StereoToMonoFrame(DownsampleFrame(frame, targetRate))
    ensures targetChannels == 1 && frame.channels == 1 ==>
      ProcessFrame(frame, targetRate, targetChannels) == DownsampleFrame(frame, targetRate)
    ensures targetChannels == 1 && frame.channels == 2 ==>
      var m := ProcessFrame(frame, targetRate, targetChannels);
      m.channels == 1 && |m.samples| == |DownsampleFrame(frame, targetRate).samples| / 2
    ensures targetChannels == 1 && frame.channels != 1 && frame.channels != 2 ==>
      ProcessFrame(frame, targetRate, targetChannels) == DownsampleFrame(frame, targetRate)
    ensures targetChannels != 1 ==>
      ProcessFrame(frame, targetRate, targetChannels) == DownsampleFrame(frame, targetRate)
    ensures ProcessFrame(frame, targetRate, targetChannels).timestampMs == frame.timestampMs
    ensures ProcessFrame(frame, targetRate, targetChannels).source == frame.source
  {
  }

  /** Decimation runs on the interleaved samples before the channels are
      folded. At a rate ratio of 2 it keeps only the left samples of a
      stereo frame, so the mono output is the sum of two consecutive left
      samples and the right channel does not reach it at all. */
  lemma StereoHalfRateKeepsLeft(left: seq<I16>, right: seq<I16>, ts: nat, source: Source)
    requires |left| == |right|
    ensures var f := AudioFrame(Interleave(left, right), 32000, 2, ts, source);
      var m := ProcessFrame(f, 16000, 1);
      m.sampleRate == 16000 && m.channels == 1 && m.samples == MonoSamples(left)
  {
    var f := AudioFrame(Interleave(left, right), 32000, 2, ts, source);
    HalfRateDecimation(left, right);
    assert ProcessFrame(f, 16000, 1) == StereoToMonoFrame(AudioFrame(left, 16000, 2, ts, source));
  }

  /** Decimating interleaved stereo by 2 keeps exactly the left samples. */
  lemma HalfRateDecimation(left: seq<I16>, right: seq<I16>)
    requires |left| == |right|
    ensures StepBy(Interleave(left, right), 2) == left
  {
    var s := Interleave(left, right);
    var d := StepBy(s, 2);
    StepByIndices(s, 2);
    StepByLength(s, 2);
    assert |d| == |left|;
    forall i | 0 <= i < |d| ensures d[i] == left[i] {
      InterleaveLayout(left, right, i);
    }
  }

  // ---------------------------------------------------------------------
  // Little-endian PCM packing
  // ---------------------------------------------------------------------

  /** `i16::to_le_bytes`: two's complement, low byte first. */
  function LeBytes(x: I16): (b: seq<U8>)
    ensures |b| == 2
  {
    var u := if x < 0 then x + 0x1_0000 else x;
    [u % 256, u / 256]
  }

  /** `i16::from_le_bytes([lo, hi])`. */
  function FromLeBytes(lo: U8, hi: U8): I16
  {
    var u := lo + 256 * hi;
    if u >= 0x8000 then u - 0x1_0000 else u
  }

  lemma LeRoundTrip(x: I16)
    ensures FromLeBytes(LeBytes(x)[0], LeBytes(x)[1]) == x
  {
  }

  lemma FromLeRoundTrip(lo: U8, hi: U8)
    ensures LeBytes(FromLeBytes(lo, hi)) == [lo, hi]
  {
  }

  /** `samples.iter().flat_map(|s| s.to_le_bytes()).collect()`. */
  function PackPcm(samples: seq<I16>): (b: seq<U8>)
    ensures |b| == 2 * |samples|
  {
    if |samples| == 0 then [] else LeBytes(samples[0]) + PackPcm(samples[1..])
  }

  /** `bytes.chunks_exact(2).map(|c| i16::from_le_bytes([c[0], c[1]]))`:
      an odd trailing byte is ignored. */
  function UnpackPcm(bytes: seq<U8>): (s: seq<I16>)
    ensures |s| == |bytes| / 2
  {
    if |bytes| < 2 then [] else [FromLeBytes(bytes[0], bytes[1])] + UnpackPcm(bytes[2..])
  }

  /** Sample `i` occupies bytes `2i` (low) and `2i + 1` (high). */
  lemma {:induction false} PackPcmLayout(samples: seq<I16>)
    ensures forall i :: 0 <= i < |samples| ==>
      PackPcm(samples)[2 * i] == LeBytes(samples[i])[0] &&
      PackPcm(samples)[2 * i + 1] == LeBytes(samples[i])[1]
  {
    if |samples| > 0 {
      PackPcmLayout(samples[1..]);
      var b := PackPcm(samples);
      assert b == LeBytes(samples[0]) + PackPcm(samples[1..]);
      forall i | 0 <= i < |samples|
        ensures b[2 * i] == LeBytes(samples[i])[0] && b[2 * i + 1] == LeBytes(samples[i])[1]
      {
        if i > 0 {
          assert samples[i] == samples[1..][i - 1];
          assert b[2 * i] == PackPcm(samples[1..])[2 * (i - 1)];
          assert b[2 * i + 1] == PackPcm(samples[1..])[2 * (i - 1) + 1];
        }
      }
    }
  }

  /** Unpacking the packed bytes gives the samples back. */
  lemma {:induction false} UnpackPack(samples: seq<I16>)
    ensures UnpackPcm(PackPcm(samples)) == samples
  {
    if |samples| > 0 {
      var b := PackPcm(samples);
      assert b[2..] == PackPcm(samples[1..]);
      UnpackPack(samples[1..]);
      LeRoundTrip(samples[0]);
      assert [samples[0]] + samples[1..] == samples;
    }
  }

  /** Every byte string of even length is the packing of its unpacking. */
  lemma {:induction false} PackUnpack(bytes: seq<U8>)
    requires |bytes| % 2 == 0
    ensures PackPcm(UnpackPcm(bytes)) == bytes
    decreases |bytes|
  {
    if |bytes| >= 2 {
      var s := UnpackPcm(bytes);
      PackUnpack(bytes[2..]);
      FromLeRoundTrip(bytes[0], bytes[1]);
      assert s[1..] == UnpackPcm(bytes[2..]);
      assert [bytes[0], bytes[1]] + bytes[2..] == bytes;
    }
  }

  /** The samples of tests/nats_tests.rs:101 and their bytes. */
  lemma PackExample()
    ensures PackPcm([100, -200, 300, -400]) == [100, 0, 56, 255, 44, 1, 112, 254]
    ensures UnpackPcm([100, 0, 56, 255, 44, 1, 112, 254]) == [100, -200, 300, -400]
  {
    var s: seq<I16> := [100, -200, 300, -400];
    assert s[1..] == [-200, 300, -400] && s[1..][1..] == [300, -400] && s[1..][1..][1..] == [-400];
    assert PackPcm([-400]) == [112, 254];
    assert PackPcm([300, -400]) == [44, 1, 112, 254];
    assert PackPcm([-200, 300, -400]) == [56, 255, 44, 1, 112, 254];
    UnpackPack(s);
  }

  /** A frame's samples survive the whole path to the bus: packed, carried
      in the envelope as base64, decoded and unpacked on the other side. */
  lemma PcmEnvelopeRoundTrip(client: Nats.NatsClient, samples: seq<I16>, sampleRate: nat,
                             channels: nat, sequence: Nats.U32, isFinal: bool, now: string)
    ensures var p := Nats.AudioFrameEnvelope(client, PackPcm(samples), sampleRate, channels,
                                             sequence, isFinal, now);
      Base64.Decode(p.message.pcm).Some? &&
      UnpackPcm(Base64.Decode(p.message.pcm).value) == samples
  {
    Nats.EnvelopePayload(client, PackPcm(samples), sampleRate, channels, sequence, isFinal, now);
    UnpackPack(samples);
  }

  // ---------------------------------------------------------------------
  // Audio pipeline: sequence numbers, chunk counter and published envelopes
  // ---------------------------------------------------------------------

  /** `seq as u32`: truncation to the low 32 bits. */
  function AsU32(n: nat): Nats.U32
  {
    n % 0x1_0000_0000
  }

  /** Every frame can go through `process_frame` at the session's rate. */
  predicate AllDivisible(frames: seq<AudioFrame>, targetRate: nat)
  {
    forall i :: 0 <= i < |frames| ==> RateDivisible(frames[i], targetRate)
  }

  /** What the audio task receives: the backend's frames, how many of them
      arrive while `is_recording` is still true, which sequence numbers fail
      to publish, whether the final marker fails to publish, and the
      wall-clock stamp of each publication. */
  datatype AudioInput = AudioInput(
    frames: seq<AudioFrame>,
    stopAt: nat,
    publishFails: set<nat>,
    finalFails: bool,
    clock: nat -> string)

  /** What the transcript task receives, and how many receipts still see
      `is_recording` true. */
  datatype TranscriptInput = TranscriptInput(payloads: seq<Payload>, stopAt: nat)

  /** The environment of one `start` call. */
  datatype StartEnv = StartEnv(
    backendCreateFails: bool,
    backendStartFails: bool,
    audio: AudioInput,
    subscribeFails: bool,
    transcripts: TranscriptInput)

  /** The number of inputs handled before the task sees the stop (or its
      receiver ends). */
  function Handled(available: nat, stopAt: nat): (n: nat)
    ensures n <= available && n <= stopAt
    ensures n == available || n == stopAt
  {
    if stopAt < available then stopAt else available
  }

  /** Every frame after `process_frame`. */
  function ProcessAll(cfg: SessionConfig, frames: seq<AudioFrame>): (out: seq<AudioFrame>)
    requires AllDivisible(frames, cfg.sampleRate)
    ensures |out| == |frames|
    decreases |frames|
  {
    if |frames| == 0 then []
    else ProcessAll(cfg, frames[..|frames| - 1])
         + [ProcessFrame(frames[|frames| - 1], cfg.sampleRate, cfg.channels)]
  }

  /** `ProcessAll` transforms each frame on its own. */
  lemma {:induction false} ProcessAllAt(cfg: SessionConfig, frames: seq<AudioFrame>, i: nat)
    requires AllDivisible(frames, cfg.sampleRate) && i < |frames|
    ensures RateDivisible(frames[i], cfg.sampleRate)
    ensures ProcessAll(cfg, frames)[i] == ProcessFrame(frames[i], cfg.sampleRate, cfg.channels)
    decreases |frames|
  {
    var n := |frames| - 1;
    if i < n {
      var init := frames[..n];
      assert AllDivisible(init, cfg.sampleRate) by {
        forall j | 0 <= j < |init| ensures RateDivisible(init[j], cfg.sampleRate) {
          assert init[j] == frames[j];
        }
      }
      ProcessAllAt(cfg, init, i);
      assert init[i] == frames[i];
    }
  }

  /** Taking one more frame appends its processed form. */
  lemma ProcessAllSnoc(cfg: SessionConfig, frames: seq<AudioFrame>, i: nat)
    requires AllDivisible(frames, cfg.sampleRate) && i < |frames|
    ensures AllDivisible(frames[..i], cfg.sampleRate) && AllDivisible(frames[..i + 1], cfg.sampleRate)
    ensures RateDivisible(frames[i], cfg.sampleRate)
    ensures ProcessAll(cfg, frames[..i + 1])
         == ProcessAll(cfg, frames[..i]) + [ProcessFrame(frames[i], cfg.sampleRate, cfg.channels)]
  {
    var pre := frames[..i + 1];
    assert pre[..i] == frames[..i] && pre[i] == frames[i];
    assert forall j :: 0 <= j <= i ==> pre[j] == frames[j];
  }

  /** The envelope of a processed frame with sequence number `s`. */
  function FrameEnvelope(cfg: SessionConfig, client: Nats.NatsClient, processed: AudioFrame,
                         s: nat, input: AudioInput): Nats.Publication
  {
    Nats.AudioFrameEnvelope(client, PackPcm(processed.samples), cfg.sampleRate, cfg.channels,
                            AsU32(s), false, input.clock(s))
  }

  /** The publication for a processed frame with sequence number `s`,
      unless its publish fails. */
  function FramePublication(cfg: SessionConfig, client: Nats.NatsClient, processed: AudioFrame,
                            s: nat, input: AudioInput): seq<Nats.Publication>
  {
    if s in input.publishFails then [] else [FrameEnvelope(cfg, client, processed, s, input)]
  }

  /** The publications for the processed frames, numbered from `seq0`. */
  function AudioPublications(cfg: SessionConfig, client: Nats.NatsClient, processed: seq<AudioFrame>,
                             seq0: nat, input: AudioInput): seq<Nats.Publication>
    decreases |processed|
  {
    if |processed| == 0 then []
    else AudioPublications(cfg, client, processed[..|processed| - 1], seq0, input)
         + FramePublication(cfg, client, processed[|processed| - 1], seq0 + |processed| - 1, input)
  }

  /** One more processed frame appends its own publication, if any. */
  lemma AudioPublicationsSnoc(cfg: SessionConfig, client: Nats.NatsClient, processed: seq<AudioFrame>,
                              next: AudioFrame, seq0: nat, input: AudioInput)
    ensures AudioPublications(cfg, client, processed + [next], seq0, input)
         == AudioPublications(cfg, client, processed, seq0, input)
            + FramePublication(cfg, client, next, seq0 + |processed|, input)
  {
    assert (processed + [next])[..|processed|] == processed;
  }

  /** The final marker: no PCM, `final = true`, numbered with the count of
      frames taken so far. */
  function FinalPublication(cfg: SessionConfig, client: Nats.NatsClient, count: nat,
                            input: AudioInput): seq<Nats.Publication>
  {
    if input.finalFails then []
    else [Nats.AudioFrameEnvelope(client, [], cfg.sampleRate, cfg.channels, AsU32(count), true,
                                  input.clock(count))]
  }

  /** The counter rule applied to sequence number `s`. */
  function CounterStep(chunks: nat, s: nat): nat
  {
    if s % 100 == 0 then s / 100 else chunks
  }

  /** The chunk counter after the sequence numbers `seq0 .. seq0 + k - 1`
      have been handed out, starting from `c0`. */
  function ChunksAfter(c0: nat, seq0: nat, k: nat): nat
    decreases k
  {
    if k == 0 then c0 else CounterStep(ChunksAfter(c0, seq0, k - 1), seq0 + k - 1)
  }

  /** One frame more advances the counter by the counter rule. */
  lemma ChunksAfterNext(c0: nat, seq0: nat, k: nat, chunks: nat)
    requires chunks == ChunksAfter(c0, seq0, k)
    ensures CounterStep(chunks, seq0 + k) == ChunksAfter(c0, seq0, k + 1)
  {
  }

  /** The counter is the hundreds of the last multiple of 100 handed out,
      or `c0` when none has been. */
  lemma {:induction false} ChunksClosedForm(c0: nat, seq0: nat, k: nat)
    ensures ChunksAfter(c0, seq0, k)
         == if k > 0 && (seq0 + k - 1) / 100 * 100 >= seq0 then (seq0 + k - 1) / 100 else c0
    decreases k
  {
    if k > 0 {
      ChunksClosedForm(c0, seq0, k - 1);
      var s := seq0 + k - 1;
      if s % 100 != 0 && k > 1 {
        assert s / 100 == (s - 1) / 100;
      }
    }
  }

  /** A fresh session that has handed out `k` sequence numbers reports
      `(k - 1) / 100` chunks: the counter is set at 0, 100, 200, … */
  lemma ChunksFromZero(k: nat)
    ensures ChunksAfter(0, 0, k) == if k == 0 then 0 else (k - 1) / 100
  {
    ChunksClosedForm(0, 0, k);
  }

  /** Without publish faults there is one publication per processed frame. */
  lemma {:induction false} AudioPublicationsLength(cfg: SessionConfig, client: Nats.NatsClient,
                                                   processed: seq<AudioFrame>, seq0: nat, input: AudioInput)
    requires forall j :: seq0 <= j < seq0 + |processed| ==> j !in input.publishFails
    ensures |AudioPublications(cfg, client, processed, seq0, input)| == |processed|
    decreases |processed|
  {
    if |processed| > 0 {
      AudioPublicationsLength(cfg, client, processed[..|processed| - 1], seq0, input);
    }
  }

  /** Without publish faults, processed frame `i` is published as its own
      envelope, numbered `seq0 + i`. */
  lemma {:induction false} AudioPublicationsAll(cfg: SessionConfig, client: Nats.NatsClient,
                                                processed: seq<AudioFrame>, seq0: nat, input: AudioInput, i: nat)
    requires forall j :: seq0 <= j < seq0 + |processed| ==> j !in input.publishFails
    requires i < |processed|
    ensures var ps := AudioPublications(cfg, client, processed, seq0, input);
      |ps| == |processed| && ps[i] == FrameEnvelope(cfg, client, processed[i], seq0 + i, input)
    decreases |processed|, 1
  {
    AudioPublicationsLength(cfg, client, processed, seq0, input);
    if i < |processed| - 1 {
      AudioPublicationsEarlier(cfg, client, processed, seq0, input, i);
    } else {
      AudioPublicationsLength(cfg, client, processed[..i], seq0, input);
      AudioPublicationsLast(cfg, client, processed, seq0, input);
    }
  }

  /** The inductive case of `AudioPublicationsAll`: a frame before the last. */
  lemma {:induction false} AudioPublicationsEarlier(cfg: SessionConfig, client: Nats.NatsClient,
                                                    processed: seq<AudioFrame>, seq0: nat, input: AudioInput, i: nat)
    requires forall j :: seq0 <= j < seq0 + |processed| ==> j !in input.publishFails
    requires i < |processed| - 1
    ensures var ps := AudioPublications(cfg, client, processed, seq0, input);
      |ps| == |processed| && ps[i] == FrameEnvelope(cfg, client, processed[i], seq0 + i, input)
    decreases |processed|, 0
  {
    AudioPublicationsLength(cfg, client, processed, seq0, input);
    var init := processed[..|processed| - 1];
    AudioPublicationsAll(cfg, client, init, seq0, input, i);
    AudioPublicationsPrefix(cfg, client, processed, seq0, input, i);
    assert init[i] == processed[i];
  }

  /** The last frame's publication closes the sequence. */
  lemma AudioPublicationsLast(cfg: SessionConfig, client: Nats.NatsClient,
                              processed: seq<AudioFrame>, seq0: nat, input: AudioInput)
    requires |processed| > 0 && seq0 + |processed| - 1 !in input.publishFails
    ensures var n := |processed| - 1;
      AudioPublications(cfg, client, processed, seq0, input)
        == AudioPublications(cfg, client, processed[..n], seq0, input)
           + [FrameEnvelope(cfg, client, processed[n], seq0 + n, input)]
  {
  }

  /** The publications of a prefix of the frames are a prefix of the
      publications. */
  lemma AudioPublicationsPrefix(cfg: SessionConfig, client: Nats.NatsClient,
                                processed: seq<AudioFrame>, seq0: nat, input: AudioInput, i: nat)
    requires |processed| > 0
    requires i < |AudioPublications(cfg, client, processed[..|processed| - 1], seq0, input)|
    ensures AudioPublications(cfg, client, processed, seq0, input)[i]
         == AudioPublications(cfg, client, processed[..|processed| - 1], seq0, input)[i]
  {
  }

  /** Without publish faults, frame `i` is published with sequence number
      `seq0 + i` (truncated to u32), so the numbers have no gaps; it carries
      the session's subject and id, is not final, and its payload decodes and
      unpacks to the samples of the frame after `process_frame`. */
  lemma AudioPublicationsNoFaults(cfg: SessionConfig, client: Nats.NatsClient,
                                  frames: seq<AudioFrame>, seq0: nat, input: AudioInput, i: nat)
    requires AllDivisible(frames, cfg.sampleRate)
    requires forall j :: seq0 <= j < seq0 + |frames| ==> j !in input.publishFails
    requires i < |frames|
    ensures RateDivisible(frames[i], cfg.sampleRate)
    ensures var ps := AudioPublications(cfg, client, ProcessAll(cfg, frames), seq0, input);
      |ps| == |frames| &&
      ps[i].subject == Nats.AudioFrameSubject(client.meetingId) &&
      ps[i].message.sessionId == client.meetingId &&
      ps[i].message.sequence == AsU32(seq0 + i) &&
      !ps[i].message.finalFrame &&
      ps[i].message.sampleRate == cfg.sampleRate && ps[i].message.channels == cfg.channels &&
      Base64.Decode(ps[i].message.pcm).Some? &&
      UnpackPcm(Base64.Decode(ps[i].message.pcm).value)
        == ProcessFrame(frames[i], cfg.sampleRate, cfg.channels).samples
  {
    var processed := ProcessAll(cfg, frames);
    AudioPublicationsAll(cfg, client, processed, seq0, input, i);
    ProcessAllAt(cfg, frames, i);
    var samples := processed[i].samples;
    PcmEnvelopeRoundTrip(client, samples, cfg.sampleRate, cfg.channels, AsU32(seq0 + i), false,
                         input.clock(seq0 + i));
  }

  /** Every publication of the audio task, fault or no fault, is a non-final
      envelope of this session on its own subject, and there is at most one
      per frame. */
  lemma {:induction false} AudioPublicationsOnSubject(cfg: SessionConfig, client: Nats.NatsClient,
                                                      processed: seq<AudioFrame>, seq0: nat, input: AudioInput)
    ensures var ps := AudioPublications(cfg, client, processed, seq0, input);
      |ps| <= |processed| &&
      forall p :: p in ps ==>
        p.subject == Nats.AudioFrameSubject(client.meetingId) &&
        p.message.sessionId == client.meetingId && !p.message.finalFrame
    decreases |processed|
  {
    if |processed| > 0 {
      AudioPublicationsOnSubject(cfg, client, processed[..|processed| - 1], seq0, input);
    }
  }

  /** The final marker, when published, has an empty payload, `final` set,
      and the number of frames taken as its sequence number. */
  lemma FinalMarker(cfg: SessionConfig, client: Nats.NatsClient, count: nat, input: AudioInput)
    ensures var ps := FinalPublication(cfg, client, count, input);
      |ps| == (if input.finalFails then 0 else 1) &&
      forall p :: p in ps ==>
        p.message.pcm == "" && p.message.finalFrame && p.message.sequence == AsU32(count) &&
        p.subject == Nats.AudioFrameSubject(client.meetingId)
  {
  }

  // ---------------------------------------------------------------------
  // Transcript pipeline
  // ---------------------------------------------------------------------

  /** The segment a received payload adds to the log of session `sid`. */
  function PayloadSegment(sid: string, p: Payload): seq<TranscriptSegment>
  {
    match p
    case Unparsable => []
    case Parsed(m) =>
      if m.sessionId != sid then [] else [TranscriptSegment(m.text, m.confidence, m.partial)]
  }

  /** The log built from `payloads` by the transcript task. */
  function SessionSegments(sid: string, payloads: seq<Payload>): seq<TranscriptSegment>
    decreases |payloads|
  {
    if |payloads| == 0 then []
    else SessionSegments(sid, payloads[..|payloads| - 1]) + PayloadSegment(sid, payloads[|payloads| - 1])
  }

  /** The log of a concatenation is the concatenation of the logs: messages
      are kept in arrival order, one segment per message at most. */
  lemma {:induction false} SegmentsAppend(sid: string, a: seq<Payload>, b: seq<Payload>)
    ensures SessionSegments(sid, a + b) == SessionSegments(sid, a) + SessionSegments(sid, b)
    decreases |b|
  {
    if |b| > 0 {
      var n := |b| - 1;
      assert (a + b)[..|a + b| - 1] == a + b[..n];
      assert (a + b)[|a + b| - 1] == b[n];
      SegmentsAppend(sid, a, b[..n]);
    } else {
      assert a + b == a;
    }
  }

  /** A single payload adds a segment exactly when it parses and names the session. */
  lemma SegmentOfOne(sid: string, p: Payload)
    ensures |SessionSegments(sid, [p])| == (if p.Parsed? && p.message.sessionId == sid then 1 else 0)
    ensures p.Parsed? && p.message.sessionId == sid ==>
      SessionSegments(sid, [p]) == [TranscriptSegment(p.message.text, p.message.confidence, p.message.partial)]
  {
    assert [p][..0] == [];
  }

  /** Messages of other sessions and unparsable payloads leave no trace. */
  lemma {:induction false} SegmentsOfOthers(sid: string, payloads: seq<Payload>)
    requires forall i :: 0 <= i < |payloads| ==> payloads[i].Unparsable? || payloads[i].message.sessionId != sid
    ensures SessionSegments(sid, payloads) == []
    decreases |payloads|
  {
    if |payloads| > 0 {
      SegmentsOfOthers(sid, payloads[..|payloads| - 1]);
    }
  }

  /** When every payload is a message of the session, the log holds one
      segment per message, in order, with text, confidence and partial flag
      copied. */
  lemma {:induction false} SegmentsOfSession(sid: string, payloads: seq<Payload>)
    requires forall i :: 0 <= i < |payloads| ==> payloads[i].Parsed? && payloads[i].message.sessionId == sid
    ensures var log := SessionSegments(sid, payloads);
      |log| == |payloads| &&
      forall i :: 0 <= i < |log| ==>
        log[i] == TranscriptSegment(payloads[i].message.text, payloads[i].message.confidence,
                                    payloads[i].message.partial)
    decreases |payloads|
  {
    if |payloads| > 0 {
      var n := |payloads| - 1;
      SegmentsOfSession(sid, payloads[..n]);
      var log := SessionSegments(sid, payloads);
      assert log == SessionSegments(sid, payloads[..n]) + PayloadSegment(sid, payloads[n]);
    }
  }

  // ---------------------------------------------------------------------
  // The session object
  // ---------------------------------------------------------------------

  /** The publications of the audio loop after its first `n` frames: each
      frame processed and published with the next sequence number from
      `seq0`. */
  function LoopPublications(cfg: SessionConfig, client: Nats.NatsClient, frames: seq<AudioFrame>,
                            n: nat, seq0: nat, input: AudioInput): seq<Nats.Publication>
    requires n <= |frames| && AllDivisible(frames, cfg.sampleRate)
    decreases n
  {
    if n == 0 then []
    else LoopPublications(cfg, client, frames, n - 1, seq0, input)
         + FramePublication(cfg, client, ProcessFrame(frames[n - 1], cfg.sampleRate, cfg.channels),
                            seq0 + n - 1, input)
  }

  /** The loop's publications are those of the pipeline on the first `n`
      frames. */
  lemma {:induction false} LoopPublicationsSpec(cfg: SessionConfig, client: Nats.NatsClient,
                                                frames: seq<AudioFrame>, n: nat, seq0: nat, input: AudioInput)
    requires n <= |frames| && AllDivisible(frames, cfg.sampleRate)
    ensures AllDivisible(frames[..n], cfg.sampleRate)
    ensures LoopPublications(cfg, client, frames, n, seq0, input)
         == AudioPublications(cfg, client, ProcessAll(cfg, frames[..n]), seq0, input)
    decreases n
  {
    if n > 0 {
      var k := n - 1;
      LoopPublicationsSpec(cfg, client, frames, k, seq0, input);
      ProcessAllSnoc(cfg, frames, k);
      var step := FramePublication(cfg, client, ProcessFrame(frames[k], cfg.sampleRate, cfg.channels),
                                   seq0 + k, input);
      calc {
        LoopPublications(cfg, client, frames, n, seq0, input);
        LoopPublications(cfg, client, frames, k, seq0, input) + step;
        AudioPublications(cfg, client, ProcessAll(cfg, frames[..k]), seq0, input) + step;
        { StepPublications(cfg, client, frames, k, seq0, input); }
        AudioPublications(cfg, client, ProcessAll(cfg, frames[..n]), seq0, input);
      }
    } else {
      assert frames[..0] == [];
    }
  }

  /** The publications of the first `i + 1` frames are those of the first
      `i` and then frame `i`'s, numbered `seq0 + i`. */
  lemma StepPublications(cfg: SessionConfig, client: Nats.NatsClient, frames: seq<AudioFrame>, i: nat,
                         seq0: nat, input: AudioInput)
    requires i < |frames| && AllDivisible(frames[..i], cfg.sampleRate)
    requires AllDivisible(frames[..i + 1], cfg.sampleRate)
    requires RateDivisible(frames[i], cfg.sampleRate)
    requires ProcessAll(cfg, frames[..i + 1])
          == ProcessAll(cfg, frames[..i]) + [ProcessFrame(frames[i], cfg.sampleRate, cfg.channels)]
    ensures AudioPublications(cfg, client, ProcessAll(cfg, frames[..i + 1]), seq0, input)
         == AudioPublications(cfg, client, ProcessAll(cfg, frames[..i]), seq0, input)
            + FramePublication(cfg, client, ProcessFrame(frames[i], cfg.sampleRate, cfg.channels),
                               seq0 + i, input)
  {
    var before := ProcessAll(cfg, frames[..i]);
    var next := ProcessFrame(frames[i], cfg.sampleRate, cfg.channels);
    assert |before| == i;
    calc {
      AudioPublications(cfg, client, ProcessAll(cfg, frames[..i + 1]), seq0, input);
      AudioPublications(cfg, client, before + [next], seq0, input);
      { AudioPublicationsSnoc(cfg, client, before, next, seq0, input); }
      AudioPublications(cfg, client, before, seq0, input) + FramePublication(cfg, client, next, seq0 + i, input);
    }
  }

  /** What the recording state holds after `n` frames: without publish
      faults, `n` envelopes numbered from `seq0`, frame `i`'s payload
      unpacking to the processed frame; faults or not, all of them on the
      session's subject, none final. */
  lemma LoopPublicationsProperties(cfg: SessionConfig, client: Nats.NatsClient, frames: seq<AudioFrame>,
                                   n: nat, seq0: nat, input: AudioInput, i: nat)
    requires n <= |frames| && AllDivisible(frames, cfg.sampleRate)
    ensures var ps := LoopPublications(cfg, client, frames, n, seq0, input);
      |ps| <= n &&
      forall p :: p in ps ==>
        p.subject == Nats.AudioFrameSubject(client.meetingId) &&
        p.message.sessionId == client.meetingId && !p.message.finalFrame
    ensures (forall j :: seq0 <= j < seq0 + n ==> j !in input.publishFails) && i < n ==>
      var ps := LoopPublications(cfg, client, frames, n, seq0, input);
      |ps| == n &&
      ps[i].message.sequence == AsU32(seq0 + i) &&
      Base64.Decode(ps[i].message.pcm).Some? &&
      UnpackPcm(Base64.Decode(ps[i].message.pcm).value)
        == ProcessFrame(frames[i], cfg.sampleRate, cfg.channels).samples
  {
    LoopPublicationsSpec(cfg, client, frames, n, seq0, input);
    AudioPublicationsOnSubject(cfg, client, ProcessAll(cfg, frames[..n]), seq0, input);
    if (forall j :: seq0 <= j < seq0 + n ==> j !in input.publishFails) && i < n {
      AudioPublicationsNoFaults(cfg, client, frames[..n], seq0, input, i);
      assert frames[..n][i] == frames[i];
    }
  }

  /** The audio task's state after its first `i` frames, from counters `c0`,
      `seq0` and bus output `p0`: the sequence counter has advanced by `i`,
      the chunk counter follows the counter rule, and the publications of
      those frames follow the ones made before. */
  ghost predicate LoopInv(cfg: SessionConfig, client: Nats.NatsClient, frames: seq<AudioFrame>, i: nat,
                          input: AudioInput, c0: nat, seq0: nat, p0: seq<Nats.Publication>,
                          fs: nat, chunks: nat, pubs: seq<Nats.Publication>)
    requires i <= |frames| && AllDivisible(frames, cfg.sampleRate)
  {
    fs == seq0 + i && chunks == ChunksAfter(c0, seq0, i) &&
    pubs == p0 + LoopPublications(cfg, client, frames, i, seq0, input)
  }

  /** The audio task's state once it has run to its end: the frames taken
      are those received before `is_recording` was seen false, numbered
      without gaps from `seq0`; each was published unless its publish failed
      (`AudioPublicationsNoFaults`); the final marker follows; the counters
      have moved by the counter rule. */
  ghost predicate TaskState(cfg: SessionConfig, client: Nats.NatsClient, input: AudioInput,
                            c0: nat, seq0: nat, p0: seq<Nats.Publication>,
                            fs: nat, chunks: nat, pubs: seq<Nats.Publication>)
    requires AllDivisible(input.frames, cfg.sampleRate)
  {
    var n := Handled(|input.frames|, input.stopAt);
    fs == seq0 + n && chunks == ChunksAfter(c0, seq0, n) &&
    pubs == p0 + LoopPublications(cfg, client, input.frames, n, seq0, input)
              + FinalPublication(cfg, client, seq0 + n, input)
  }

  /** Publishing the final marker completes the audio task. */
  lemma FinalState(cfg: SessionConfig, client: Nats.NatsClient, input: AudioInput,
                   c0: nat, seq0: nat, p0: seq<Nats.Publication>,
                   fs: nat, chunks: nat, pubs: seq<Nats.Publication>)
    requires AllDivisible(input.frames, cfg.sampleRate)
    requires LoopInv(cfg, client, input.frames, Handled(|input.frames|, input.stopAt), input,
                     c0, seq0, p0, fs, chunks, pubs)
    ensures TaskState(cfg, client, input, c0, seq0, p0, fs, chunks,
                      pubs + FinalPublication(cfg, client, fs, input))
  {
    var n := Handled(|input.frames|, input.stopAt);
    var loop := LoopPublications(cfg, client, input.frames, n, seq0, input);
    assert fs == seq0 + n && pubs == p0 + loop;
    var fin := FinalPublication(cfg, client, fs, input);
    assert pubs + fin == p0 + loop + fin;
  }

  const ConnectContext: string := "Failed to connect to NATS"

  class RecordingSession {
    const config: SessionConfig
    const client: Nats.NatsClient
    var isRecording: bool
    var chunksRecorded: nat
    var frameSequence: nat
    var transcriptSegments: seq<TranscriptSegment>
    /** The envelopes handed to the bus so far, in order. */
    var published: seq<Nats.Publication>

    /** The client publishes for this session's meeting. */
    ghost predicate Valid()
    {
      client.meetingId == config.sessionId
    }

    constructor(config: SessionConfig, client: Nats.NatsClient)
      requires client.meetingId == config.sessionId
      ensures Valid()
      ensures this.config == config && this.client == client
      ensures !isRecording && chunksRecorded == 0 && frameSequence == 0
      ensures transcriptSegments == [] && published == []
    {
      this.config := config;
      this.client := client;
      isRecording := false;
      chunksRecorded := 0;
      frameSequence := 0;
      transcriptSegments := [];
      published := [];
    }

    /** `RecordingSession::new`: connect to the bus, then a session that is
        not recording, with zero counters and an empty log. */
    static method New(config: SessionConfig, connectFails: bool) returns (r: Result<RecordingSession>)
      ensures r.Success? <==> !connectFails
      ensures r.Failure? ==> r.error == ConnectContext
      ensures r.Success? ==> (fresh(r.value) && r.value.Valid() && r.value.config == config &&
        !r.value.isRecording && r.value.chunksRecorded == 0 && r.value.frameSequence == 0 &&
        r.value.transcriptSegments == [] && r.value.published == [])
    {
      var c := Nats.Connect(config.natsUrl, config.sessionId, connectFails);
      if c.Failure? {
        return Failure(ConnectContext);
      }
      var s := new RecordingSession(config, c.value);
      return Success(s);
    }

    /** `get_stats`, without the clock-derived fields. */
    function Stats(): SessionStats
      reads this
    {
      SessionStats(isRecording, chunksRecorded, |transcriptSegments|)
    }

    /** The audio task: process, pack and publish every frame received while
        recording, numbering them from the current sequence counter and
        updating the chunk counter, then publish the final marker. */
    method RunAudioTask(input: AudioInput)
      requires AllDivisible(input.frames, config.sampleRate)
      modifies this
      ensures TaskState(config, client, input, old(chunksRecorded), old(frameSequence), old(published),
                        frameSequence, chunksRecorded, published)
      ensures isRecording == old(isRecording) && transcriptSegments == old(transcriptSegments)
    {
      AudioLoop(input);
      PublishFinal(input, old(chunksRecorded), old(frameSequence), old(published));
    }

    /** The final marker after the loop: an empty payload with `final` set,
        numbered with the current sequence counter (a failure is only logged). */
    method PublishFinal(input: AudioInput, ghost c0: nat, ghost seq0: nat, ghost p0: seq<Nats.Publication>)
      requires AllDivisible(input.frames, config.sampleRate)
      requires LoopInv(config, client, input.frames, Handled(|input.frames|, input.stopAt), input,
                       c0, seq0, p0, frameSequence, chunksRecorded, published)
      modifies this
      ensures published == old(published) + FinalPublication(config, client, frameSequence, input)
      ensures TaskState(config, client, input, c0, seq0, p0, frameSequence, chunksRecorded, published)
      ensures isRecording == old(isRecording) && transcriptSegments == old(transcriptSegments)
    {
      var fin := Nats.PublishAudioFrame(client, [], config.sampleRate, config.channels,
                                        AsU32(frameSequence), true, input.clock(frameSequence),
                                        input.finalFails);
      ghost var before := published;
      if fin.Success? {
        published := published + [fin.value];
      }
      FinalState(config, client, input, c0, seq0, p0, frameSequence, chunksRecorded, before);
    }

    /** The loop of the audio task, up to the moment `is_recording` is seen
        false or the backend runs dry. */
    method AudioLoop(input: AudioInput)
      requires AllDivisible(input.frames, config.sampleRate)
      modifies this
      ensures LoopInv(config, client, input.frames, Handled(|input.frames|, input.stopAt), input,
                      old(chunksRecorded), old(frameSequence), old(published),
                      frameSequence, chunksRecorded, published)
      ensures isRecording == old(isRecording) && transcriptSegments == old(transcriptSegments)
    {
      var frames := input.frames;
      var i := 0;
      while i < |frames|
        invariant 0 <= i <= |frames| && i <= input.stopAt
        invariant LoopInv(config, client, frames, i, input, old(chunksRecorded), old(frameSequence),
                          old(published), frameSequence, chunksRecorded, published)
        invariant isRecording == old(isRecording) && transcriptSegments == old(transcriptSegments)
        decreases |frames| - i
      {
        if i >= input.stopAt {
          break;
        }
        AudioStep(frames, i, input, old(chunksRecorded), old(frameSequence), old(published));
        i := i + 1;
      }
      assert i == Handled(|frames|, input.stopAt);
    }

    /** One iteration of the audio loop, stated against the specification
        of the first `i` frames: afterwards the state is that of the first
        `i + 1` frames. */
    method AudioStep(frames: seq<AudioFrame>, i: nat, input: AudioInput,
                     ghost c0: nat, ghost seq0: nat, ghost p0: seq<Nats.Publication>)
      requires i < |frames| && AllDivisible(frames, config.sampleRate)
      requires LoopInv(config, client, frames, i, input, c0, seq0, p0,
                       frameSequence, chunksRecorded, published)
      modifies this
      ensures LoopInv(config, client, frames, i + 1, input, c0, seq0, p0,
                      frameSequence, chunksRecorded, published)
      ensures isRecording == old(isRecording) && transcriptSegments == old(transcriptSegments)
    {
      PublishOne(ProcessFrame(frames[i], config.sampleRate, config.channels), input);
    }

    /** One iteration of the audio loop after `process_frame`: the frame gets
        the next sequence number, is packed and published (a failure is only
        logged), and the chunk counter follows the counter rule. */
    method PublishOne(processed: AudioFrame, input: AudioInput)
      modifies this
      ensures frameSequence == old(frameSequence) + 1
      ensures chunksRecorded == CounterStep(old(chunksRecorded), old(frameSequence))
      ensures published == old(published) + FramePublication(config, client, processed, old(frameSequence), input)
      ensures isRecording == old(isRecording) && transcriptSegments == old(transcriptSegments)
    {
      var pcm := PackPcm(processed.samples);
      var s := frameSequence;
      frameSequence := frameSequence + 1;
      var sent := Nats.PublishAudioFrame(client, pcm, config.sampleRate, config.channels, AsU32(s),
                                         false, input.clock(s), s in input.publishFails);
      if sent.Success? {
        published := published + [sent.value];
      }
      if s % 100 == 0 {
        chunksRecorded := s / 100;
      }
    }

    /** The transcript task: every payload received while recording that
        parses and names this session is appended to the log, in arrival
        order; others are skipped. */
    method RunTranscriptTask(input: TranscriptInput)
      modifies this
      ensures transcriptSegments == old(transcriptSegments)
        + SessionSegments(config.sessionId, input.payloads[..Handled(|input.payloads|, input.stopAt)])
      ensures isRecording == old(isRecording) && chunksRecorded == old(chunksRecorded)
      ensures frameSequence == old(frameSequence) && published == old(published)
    {
      var payloads := input.payloads;
      var i := 0;
      while i < |payloads|
        invariant 0 <= i <= |payloads| && i <= input.stopAt
        invariant transcriptSegments == old(transcriptSegments) + SessionSegments(config.sessionId, payloads[..i])
        invariant isRecording == old(isRecording) && chunksRecorded == old(chunksRecorded)
        invariant frameSequence == old(frameSequence) && published == old(published)
        decreases |payloads| - i
      {
        if i >= input.stopAt {
          break;
        }
        assert payloads[..i + 1][..i] == payloads[..i];
        match payloads[i] {
          case Unparsable =>
          case Parsed(m) =>
            if m.sessionId == config.sessionId {
              transcriptSegments := transcriptSegments + [TranscriptSegment(m.text, m.confidence, m.partial)];
            }
        }
        i := i + 1;
      }
      assert i == Handled(|payloads|, input.stopAt);
    }

    /** `start`: a no-op when already recording. Otherwise the session is
        marked recording (and stays so whatever fails next), the backend is
        created and started, the audio task runs, and the transcript
        subscription is made; the audio task has run even when the
        subscription then fails. */
    method Start(env: StartEnv) returns (r: Outcome)
      requires AllDivisible(env.audio.frames, config.sampleRate)
      modifies this
      ensures old(isRecording) ==> r == Pass && unchanged(this)
      ensures !old(isRecording) ==> isRecording
      ensures !old(isRecording) && env.backendCreateFails ==>
        r == Fail(BackendCreateError) && published == old(published) &&
        frameSequence == old(frameSequence) && chunksRecorded == old(chunksRecorded) &&
        transcriptSegments == old(transcriptSegments)
      ensures !old(isRecording) && !env.backendCreateFails && env.backendStartFails ==>
        r == Fail(BackendStartError) && published == old(published) &&
        frameSequence == old(frameSequence) && chunksRecorded == old(chunksRecorded) &&
        transcriptSegments == old(transcriptSegments)
      ensures !old(isRecording) && !env.backendCreateFails && !env.backendStartFails ==>
        r == StartedOutcome(env) && StartedState(env, old(chunksRecorded), old(frameSequence),
                                                 old(transcriptSegments), old(published))
    {
      if isRecording {
        return Pass;
      }
      isRecording := true;
      if env.backendCreateFails {
        return Fail(BackendCreateError);
      }
      if env.backendStartFails {
        return Fail(BackendStartError);
      }
      r := StartTasks(env);
    }

    /** What `start` returns once the backend is capturing. */
    function StartedOutcome(env: StartEnv): Outcome
    {
      if env.subscribeFails then Fail(Nats.SubscribeError) else Pass
    }

    /** The state once the backend is capturing: the audio task has run to
        its end, and the transcript task has run when the subscription was
        made. */
    ghost predicate StartedState(env: StartEnv, c0: nat, seq0: nat, log0: seq<TranscriptSegment>,
                                 p0: seq<Nats.Publication>)
      requires AllDivisible(env.audio.frames, config.sampleRate)
      reads this
    {
      TaskState(config, client, env.audio, c0, seq0, p0, frameSequence, chunksRecorded, published) &&
      transcriptSegments == log0
        + (if env.subscribeFails then []
           else SessionSegments(config.sessionId,
                                env.transcripts.payloads[..Handled(|env.transcripts.payloads|, env.transcripts.stopAt)]))
    }

    /** The part of `start` after the backend is capturing: the audio task,
        the transcript subscription and, when it is made, the transcript
        task. */
    method StartTasks(env: StartEnv) returns (r: Outcome)
      requires AllDivisible(env.audio.frames, config.sampleRate)
      modifies this
      ensures isRecording == old(isRecording)
      ensures r == StartedOutcome(env)
      ensures StartedState(env, old(chunksRecorded), old(frameSequence), old(transcriptSegments), old(published))
    {
      RunAudioTask(env.audio);
      ghost var audioDone := TaskState(config, client, env.audio, old(chunksRecorded), old(frameSequence), old(published), frameSequence, chunksRecorded, published);
      r := Receive(env);
      assert audioDone == TaskState(config, client, env.audio, old(chunksRecorded), old(frameSequence), old(published), frameSequence, chunksRecorded, published);
    }

    /** Subscribe to transcripts and, when that succeeds, run the transcript
        task; a failed subscription is returned with its context. */
    method Receive(env: StartEnv) returns (r: Outcome)
      modifies this
      ensures r == StartedOutcome(env)
      ensures transcriptSegments == old(transcriptSegments)
        + (if env.subscribeFails then []
           else SessionSegments(config.sessionId,
                                env.transcripts.payloads[..Handled(|env.transcripts.payloads|, env.transcripts.stopAt)]))
      ensures isRecording == old(isRecording) && chunksRecorded == old(chunksRecorded)
      ensures frameSequence == old(frameSequence) && published == old(published)
    {
      var sub := Nats.SubscribeTranscripts(client, env.subscribeFails);
      if sub.Failure? {
        return Fail(sub.error);
      }
      RunTranscriptTask(env.transcripts);
      return Pass;
    }

    /** `stop`: when recording, clear the flag (the tasks have finished by
        the time it returns); in either case report the statistics. */
    method Stop() returns (stats: SessionStats)
      modifies this
      ensures !isRecording
      ensures chunksRecorded == old(chunksRecorded) && frameSequence == old(frameSequence)
      ensures transcriptSegments == old(transcriptSegments) && published == old(published)
      ensures stats == SessionStats(false, chunksRecorded, |transcriptSegments|)
    {
      if !isRecording {
        return Stats();
      }
      isRecording := false;
      return Stats();
    }

    /** `get_transcript`: a copy of the log. */
    function Transcript(): seq<TranscriptSegment>
      reads this
    {
      transcriptSegments
    }
  }
}
