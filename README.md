# loqa-meetings core, modelled in Dafny

This project models the core of loqa-meetings, a meeting recorder,
and proves properties of that model.

The recorder captures system and microphone audio. It streams the audio
to a speech-to-text service over NATS, writes WAV files in
fixed-duration chunks, and collects the transcripts that come back for its
meeting. An HTTP API starts and stops recordings.

The model covers five parts of the system:

- The stream mixer (`Mixer`, mixer.dfy), `AudioMixer` in the source.
  - It keeps one FIFO of frames per enabled source and a playback cursor.
  - It rejects frames that are foreign to its configuration.
  - It prunes stale frames from buffer fronts.
  - Each step it pops at most one frame per source. A lone frame passes
    through unchanged. Several frames are mixed by clamped 16-bit addition.
  - `Mix` is proved to keep every buffer empty at each loop head. Its output
    is therefore the accepted, non-stale input frames, unchanged and in
    arrival order.
- The chunked recorder (`Chunk`, chunk.dfy), `ChunkedRecorder` and
  `ChunkWriter` in the source.
  - Each WAV writer is an append-only sample sequence with a `finalized` flag.
  - The imperative `Record` method is proved equal to a state machine over
    values, `RecordSpec`.
  - That state machine is proved to follow a reference chunking of the frame
    stream. This is the unique partition that satisfies the rotation rule.
  - Proved consequences: every sample lands in exactly one chunk, in order;
    chunk indices and file names are as the source formats them; the last
    chunk is always finished; each I/O fault aborts with its own error.
- The recording session (`Session`, session.dfy), `RecordingSession` in the
  source.
  - It models the per-frame transforms: decimation, stereo-to-mono by
    clamped sum, and their composition.
  - It models little-endian PCM packing.
  - It models the sequence-number and chunk counters of the audio task and
    the final marker envelope.
  - It models the `is_recording` flag machine of `start` and `stop`.
  - It models the transcript log, which keeps only the messages addressed to
    the session.
- The NATS envelope (`Nats`, nats.dfy, and `Base64`, base64.dfy).
  - It models the audio-frame subject and the fields of
    `AudioFrameMessage`.
  - The PCM payload is base64 as defined in section 4 of RFC 4648. The
    model has an encoder and a strict decoder, proved inverse in both
    directions.
  - It models the transcript subscription subject `stt.text.>` and NATS
    token matching.
- The HTTP handlers' registry (`Handlers`, handlers.dfy).
  - The registry maps meeting ids to sessions.
  - A busy id is a conflict; an unknown id is not found.
  - A session is inserted only after it started, and removed before it is
    stopped.

`Audio` (audio.dfy) holds the shared sample and frame types of
src/audio/backend.rs. `Wrappers` (wrappers.dfy) holds `Option`, `Result`
and `Outcome`.

How the model treats the source's runtime:

- Each channel receiver (`mpsc::Receiver`, NATS subscriber) is a finite
  input sequence.
- Each spawned task runs to completion when it is spawned. The moment it
  observes `is_recording == false` is a parameter `stopAt`: the number of
  receipts that still saw the flag set.
- Every failing I/O call is a parameter: NATS connect, publish and
  subscribe; backend create and start; WAV create, write and finalize.
- The mixer iterates its `HashMap` in a fixed but unspecified order. The
  model makes that order the constructor parameter `sourceOrder`.
- An `anyhow` error is rendered with `{}`, which prints only its outermost
  context. The handlers' error strings are modelled that way.

## Model

| member | source | states |
|---|---|---|
| Audio.Clamp16 | src/session/session.rs:361-364 | The result is the input when the input fits in i16, and the nearer i16 bound otherwise. |
| Mixer.DefaultConfigShape | src/audio/mixer.rs:32-46 | The default mixer configuration is 16000 Hz, mono, 200 ms maximum delay, with both sources enabled. |
| Mixer.AudioMixer.constructor | src/audio/mixer.rs:57-76 | A new mixer has exactly one empty buffer per enabled source and its cursor at 0. |
| Mixer.AudioMixer.BufferFrame | src/audio/mixer.rs:114-154 | A frame from a disabled source, or one with another rate or channel count, changes nothing. Otherwise the frame is appended to its own source's buffer, and then every buffer loses its stale front frames. The cursor is unchanged. |
| Mixer.DropStaleSpec | src/audio/mixer.rs:157-176 | Pruning removes a prefix of the buffer and keeps the rest in order. Every removed frame is older than the cutoff. The new front, if any, is at or after the cutoff. |
| Mixer.PopStale | src/audio/mixer.rs:163-175 | The pop loop returns a suffix of the buffer. Its front is at or after the cutoff, and only frames before the cutoff were popped. |
| Mixer.AudioMixer.CleanupOldFrames | src/audio/mixer.rs:157-176 | Every buffer is pruned at the cutoff `position - max_delay`, saturating at 0. The cursor is unchanged. |
| Mixer.CleanedForAll | src/audio/mixer.rs:163-175 | Pruning the buffers one at a time, in any enumeration of the sources, equals pruning all of them. |
| Mixer.PoppedForAll | src/audio/mixer.rs:185-189 | Popping fronts source by source, in any enumeration, equals popping the front of every non-empty buffer. |
| Mixer.FrontsEmptyIff | src/audio/mixer.rs:185-194 | No frame is collected if and only if every buffer is empty. |
| Mixer.FrontsCount | src/audio/mixer.rs:185-189 | At most one frame is collected per source. Each one is the front of a non-empty buffer. |
| Mixer.TotalPopped | src/audio/mixer.rs:185-189 | Popping removes exactly as many frames from the buffers as it collects. |
| Mixer.FrontsSingle | src/audio/mixer.rs:185-205 | When only one buffer can be non-empty, the collected frames are that buffer's front alone, or nothing. |
| Mixer.NextChunkNoneIff | src/audio/mixer.rs:192-194 | `mix_next_chunk` yields nothing if and only if all buffers are empty. |
| Mixer.AudioMixer.MixNextChunk | src/audio/mixer.rs:181-211 | The result is nothing, the lone front frame unchanged, or the mix of all front frames. Each non-empty buffer loses its front. The cursor moves to the output frame's timestamp, and stays put when there is no output. |
| Mixer.AudioMixer.PopFronts | src/audio/mixer.rs:185-189 | It returns the front of each non-empty buffer, in source order, and leaves each of those buffers without its front. |
| Mixer.AudioMixer.CollectFronts | src/audio/mixer.rs:185-189 | The loop over sources computes the collected fronts and the popped buffers. |
| Mixer.EarliestTimestampSpec | src/audio/mixer.rs:222-226 | The timestamp computed is the minimum over the frames, and some frame has it. |
| Mixer.LongestLengthSpec | src/audio/mixer.rs:229 | The length computed is the maximum sample count over the frames, and some frame has it. It is 0 for no frames. |
| Mixer.MixFramesShape | src/audio/mixer.rs:216-261 | The mix starts at the earliest input timestamp and is as long as the longest input. Each sample is the clamped sum of the inputs' samples at that index, counting missing samples as 0. Rate and channels come from the configuration, and the source is `System`. |
| Mixer.SumAtPermutation | src/audio/mixer.rs:233-245 | The per-index sum is the same for any permutation of the frames. |
| Mixer.MixFramesOrderIndependent | src/audio/mixer.rs:216-261 | Mixing a permutation of the same frames gives the same frame. |
| Mixer.AudioMixer.MixMultipleFrames | src/audio/mixer.rs:216-261 | No frames is an error with the source's message. Otherwise the result is the mix of the frames. |
| Mixer.MixExamples | src/audio/mixer.rs:319-402 | The three mixing tests: equal lengths add, a sum above the i16 range clips to 32767, and different lengths pad with zeros. |
| Mixer.IdleStep | src/audio/mixer.rs:90-98 | On empty buffers, one receive and one `mix_next_chunk` emit the frame unchanged iff it is accepted and not stale, and leave every buffer empty again. |
| Mixer.AudioMixer.Mix | src/audio/mixer.rs:82-111 | Starting idle, `mix` returns the frames of the stream-filter reference `MixOutput`, ends idle, and moves the cursor to `MixPosition`. |
| Mixer.AudioMixer.FlushRemaining | src/audio/mixer.rs:101-103 | The flush loop returns the frames of draining the buffers and ends idle. The cursor is the last output's timestamp. On idle buffers it returns nothing and keeps the cursor. |
| Mixer.AudioMixer.FlushOne | src/audio/mixer.rs:101-103 | One flush iteration either finds the buffers empty, or emits the next frame of the drain and strictly decreases the number of buffered frames. |
| Mixer.DrainStep | src/audio/mixer.rs:101-103 | Draining stops exactly when the buffers are empty. Otherwise it emits the next chunk and continues on fewer frames. |
| Mixer.DrainIdle | src/audio/mixer.rs:90-103 | Draining empty buffers emits nothing, so the flush after the receive loop is a no-op. |
| Mixer.FirstOutputEmitted | src/audio/mixer.rs:90-98 | The first frame `mix` emits is accepted and not stale at the starting cursor. |
| Mixer.MixOutputIsSelection | src/audio/mixer.rs:82-111 | The output of `mix` is a subsequence of its input: unchanged frames, in arrival order, all accepted. |
| Mixer.MixOutputOfOrderedInput | src/audio/mixer.rs:82-111 | When the accepted frames come in timestamp order and none is stale at the start, `mix` returns exactly the accepted frames. |
| Mixer.FreshMixerKeepsOrderedStream | src/audio/mixer.rs:57-111 | A new mixer given a time-ordered stream returns exactly its accepted frames. |
| Mixer.LateFrameDropped | src/audio/mixer.rs:153-176 | In any stream and from any cursor, a frame that follows an emitted frame but lies more than the maximum delay behind it is dropped. `mix` then carries on from the emitted frame's cursor. |
| Mixer.NoSourceEnabledMixesNothing | src/audio/mixer.rs:113-119 | With an empty set of enabled sources, every frame is rejected: `mix` returns nothing and the cursor does not move. |
| Chunk.NewChunkConfig | src/audio/chunk.rs:21-29 | `ChunkConfig::new` keeps the meeting id and directory and uses 300 s chunks. |
| Chunk.Pad3RoundTrip | src/audio/chunk.rs:153-156 | The `{:03}` rendering of an index reads back as that index and is at least three characters long. |
| Chunk.Pad3Width | src/audio/chunk.rs:153-156 | An index below 1000 renders in exactly three characters. |
| Chunk.Pad3Examples | src/audio/chunk.rs:153-156 | `{:03}` renders 0, 3, 7, 12 and 42 zero-padded, and 1234 unpadded. |
| Chunk.ChunkPathInjective | src/audio/chunk.rs:152-169 | Distinct chunk indices give distinct file paths. |
| Chunk.FileNameExample | tests/chunked_recording_tests.rs:70 | Chunk 0 of meeting `test-meeting` is `test-meeting-chunk-000.wav`. |
| Chunk.ChunkPathExample | tests/chunked_recording_tests.rs:226-235 | In directory `/tmp/test`, chunk 0 of `test-meeting` is `/tmp/test/test-meeting-chunk-000.wav`. |
| Chunk.SeparatorFileNames | src/audio/chunk.rs:153-156 | The file name does not depend on the directory. |
| Chunk.ChunkPathSeparatorExamples | src/audio/chunk.rs:153-156 | `Path::join` adds no separator after a directory that ends in one, or that is empty. |
| Chunk.ChunkWriter.constructor | src/audio/chunk.rs:196-207 | A new writer is open, empty and not finalized. Its metadata has `end_ms = start_ms` and a sample count of 0. |
| Chunk.ChunkWriter.Create | src/audio/chunk.rs:179-208 | Failing to create the file is an error naming the path. Otherwise the result is a fresh writer. |
| Chunk.ChunkWriter.WriteFrame | src/audio/chunk.rs:210-222 | The new writer state and the outcome are those of the writer model: the samples are appended, `end_ms` and the sample count advance, and a failing write leaves a prefix written. |
| Chunk.ChunkWriter.Finish | src/audio/chunk.rs:224-231 | The writer is taken and finalized, and the metadata is returned unless finalizing fails. |
| Chunk.ChunkWriter.Drop | src/audio/chunk.rs:234-242 | Drop performs the same transition as `finish` and reports nothing. |
| Chunk.DropAfterFinishIsNoop | src/audio/chunk.rs:224-242 | After `finish` the writer is gone, so the `Drop` that follows changes nothing. |
| Chunk.ChunkedRecorder.constructor | src/audio/chunk.rs:71-76 | A new recorder has no open chunk, index 0, meeting start 0 and no files. |
| Chunk.ChunkedRecorder.New | src/audio/chunk.rs:61-77 | Failing to create the output directory is an error. Otherwise the result is a fresh recorder. |
| Chunk.ChunkedRecorder.ShouldStartNewChunk | src/audio/chunk.rs:140-150 | A new chunk starts iff none is open, or the frame is at least a chunk duration after the open chunk's start. |
| Chunk.ChunkedRecorder.StartNewChunk | src/audio/chunk.rs:152-169 | It creates a writer for the next index's path, starting at the frame with the frame's format, and advances the index. On failure it changes nothing and reports the path. |
| Chunk.ChunkedRecorder.FinishCurrent | src/audio/chunk.rs:97-107 | The open chunk is taken and finished. Its metadata is pushed unless finishing fails. |
| Chunk.ChunkedRecorder.WriteCurrent | src/audio/chunk.rs:113-116 | The frame is written to the open chunk, if there is one. |
| Chunk.ChunkedRecorder.RotateChunk | src/audio/chunk.rs:95-116 | A rotation finishes the open chunk, starts the next one at the frame and writes the frame to it. The first error stops it. |
| Chunk.ChunkedRecorder.RecordFrame | src/audio/chunk.rs:88-117 | One loop iteration: set the meeting start from the first frame, rotate if due, then write. The result is the state-machine step `Step`. |
| Chunk.ChunkedRecorder.Record | src/audio/chunk.rs:80-138 | The state and result of `record` are those of the state-machine model `RecordSpec` on the same frames and faults. |
| Chunk.OpenThenWrite | src/audio/chunk.rs:109-116 | Opening a chunk at a frame and writing that frame gives a chunk holding exactly that frame. |
| Chunk.StepRotates | src/audio/chunk.rs:95-111 | A frame at least a chunk duration after the open chunk's start closes that chunk and opens a new chunk containing itself. |
| Chunk.StepJoins | src/audio/chunk.rs:113-116 | A frame less than a chunk duration after the open chunk's start is added to that chunk. |
| Chunk.StepCorresponds | src/audio/chunk.rs:88-117 | Without faults, one step keeps the recorder in step with the reference chunking extended by the frame. |
| Chunk.RunCorresponds | src/audio/chunk.rs:88-117 | Without faults, the whole receive loop keeps the recorder in step with the reference chunking. |
| Chunk.ChunkingPartitions | src/audio/chunk.rs:95-116 | The reference chunking splits the stream into consecutive, non-empty groups that concatenate back to the stream. Every frame of a group is within a chunk duration of its first frame, and each group starts at least a chunk duration after the previous one. |
| Chunk.ChunkingUnique | src/audio/chunk.rs:140-150 | Two partitions of the same stream that both satisfy the rotation rule are equal. |
| Chunk.ChunkingCharacterized | src/audio/chunk.rs:140-150 | Any partition satisfying the rotation rule is the reference chunking. |
| Chunk.RecordWithoutFaults | src/audio/chunk.rs:80-138 | Without faults `record` succeeds. It returns one metadata record per group of the reference chunking, indexed 0, 1, 2, … with each group's path, first and last timestamps, format and sample count. It leaves every chunk finished and no chunk open. |
| Chunk.RecordKeepsEverySample | src/audio/chunk.rs:113-130 | Without faults the chunk files together hold every input sample exactly once in arrival order, the sample counts add up to the input's, and every file is finalized. |
| Chunk.FilesHoldFlatten | src/audio/chunk.rs:210-219 | Files holding the groups' samples hold the samples of the whole stream, and their counts add up to its length. |
| Chunk.RecordEmptyInput | tests/chunked_recording_tests.rs:153-179 | No frames give no chunks and leave the recorder as it was. |
| Chunk.RecordFirst | tests/chunked_recording_tests.rs:182-220 | The first chunk has index 0 and path `...-chunk-000.wav`. It starts at the first frame and has that frame's rate and channel count. |
| Chunk.RecordLast | src/audio/chunk.rs:119-130 | The last chunk is reported and ends at the last frame's timestamp. |
| Chunk.RecordGridExample | tests/chunked_recording_tests.rs:80-150 | Fifty frames 100 ms apart with 2 s chunks give three chunks: 0-1900, 2000-3900 and 4000-4900. |
| Chunk.GridWellChunked | tests/chunked_recording_tests.rs:80-150 | The three groups of that test satisfy the rotation rule. |
| Chunk.StepErrorIsIo | src/audio/chunk.rs:95-116 | Any error of one loop iteration is a create, write or finalize error. |
| Chunk.RunErrorIsIo | src/audio/chunk.rs:88-117 | Any error of the receive loop is a create, write or finalize error. |
| Chunk.RecordErrorIsIo | src/audio/chunk.rs:80-138 | Any error of `record` is a create, write or finalize error. |
| Chunk.CreateFaultAborts | src/audio/chunk.rs:109-110 | When chunk 0 cannot be created, `record` fails with the create error for its path, with no chunk open and nothing pushed. |
| Chunk.WriteFaultAborts | src/audio/chunk.rs:113-116 | A write fault in the first frame aborts `record` with the write error. It leaves the partly written, unfinished chunk 0 open. |
| Chunk.FinalizeFaultAborts | src/audio/chunk.rs:119-121 | A finalize fault on the final chunk aborts `record` with the finalize error. The file remains, not finalized. |
| Chunk.RunKeepsMeetingStart | src/audio/chunk.rs:90-92 | Once set to a non-zero timestamp, the meeting start never changes. |
| Chunk.RecordMeetingStart | src/audio/chunk.rs:90-92 | The meeting start is the first frame's timestamp when that is non-zero. |
| Session.DefaultConfig | src/session/config.rs:24-34 | The default session is `meeting-<uuid>`, with 300 s chunks, 16000 Hz, mono, and the local bus URL. |
| Session.DownsampleSpec | src/session/session.rs:320-345 | With equal rates, or an integer ratio of at most 1, the frame is unchanged. Otherwise the output keeps samples 0, r, 2r, …, ceil(n / r) of them, at the target rate, with channels, timestamp and source kept. |
| Session.StepByIndices | src/session/session.rs:331-336 | `step_by(r)` keeps exactly the elements at multiples of r, in order. |
| Session.StepByLength | src/session/session.rs:331-336 | `step_by(r)` keeps ceil(n / r) elements. |
| Session.StereoToMono | src/session/session.rs:348-375 | A frame that is not stereo is unchanged. Stereo gives mono with floor(n / 2) samples, each the clamped, unaveraged sum of a left/right pair. The result equals the value-level `StereoToMonoFrame`. |
| Session.MonoOfInterleaved | src/session/session.rs:360-366 | Folding interleaved channels gives the clamped sum of each left/right pair. |
| Session.MonoKeepsLoneChannel | src/session/session.rs:360-366 | Folding a stereo signal whose right channel is silent gives back the left channel. |
| Session.InterleaveLayout | src/session/session.rs:360 | Interleaved stereo holds left samples at even and right samples at odd positions. |
| Session.ProcessFrameCases | src/session/session.rs:299-317 | A frame already in the target format is untouched. Decimation to the target rate always comes first. For a mono target, only a stereo frame is then folded into mono, which halves its sample count; any other frame is just decimated. A target other than mono keeps the decimated frame's channels. Timestamp and source are always kept. |
| Session.StereoHalfRateKeepsLeft | src/session/session.rs:299-317 | Processing a 32 kHz stereo frame for 16 kHz mono keeps every other interleaved sample, i.e. the left channel, and then pairs those up. |
| Session.HalfRateDecimation | src/session/session.rs:331-336 | Halving the rate of interleaved stereo keeps exactly the left channel. |
| Session.LeRoundTrip | src/session/session.rs:117-121 | Reading back the two little-endian bytes of a sample gives the sample. |
| Session.FromLeRoundTrip | src/session/session.rs:117-121 | Every little-endian byte pair is the encoding of the sample it reads as. |
| Session.PackPcmLayout | src/session/session.rs:117-121 | Packing puts sample i's low byte at 2i and its high byte at 2i + 1. |
| Session.UnpackPack | tests/nats_tests.rs:100-138 | Unpacking packed PCM gives back the samples. |
| Session.PackUnpack | tests/nats_tests.rs:100-138 | Packing the samples read from an even-length byte string gives back the bytes. |
| Session.PackExample | tests/nats_tests.rs:100-138 | The samples [100, -200, 300, -400] pack to [100, 0, 56, 255, 44, 1, 112, 254] and back. |
| Session.PcmEnvelopeRoundTrip | src/session/session.rs:117-128 | The payload of a published frame decodes from base64 and unpacks to exactly the frame's samples. |
| Session.Handled | src/session/session.rs:108-111 | A task handles all its inputs, or stops at the first one that sees the stop. |
| Session.ProcessAllAt | src/session/session.rs:108-114 | Element i of the processed stream is input frame i processed. |
| Session.ChunksClosedForm | src/session/session.rs:134-137 | After k frames the chunk counter is the last multiple of 100 among the sequence numbers handed out, divided by 100, or the old value if there is none. |
| Session.ChunksFromZero | src/session/session.rs:134-137 | From a fresh session, after k > 0 frames the chunk counter is (k - 1) / 100. |
| Session.AudioPublicationsLength | src/session/session.rs:123-132 | Without publish faults every processed frame is published. |
| Session.AudioPublicationsAll | src/session/session.rs:123-132 | Without publish faults, publication i is frame i's envelope with sequence number seq0 + i. |
| Session.AudioPublicationsNoFaults | src/session/session.rs:105-138 | Without publish faults, publication i is on the meeting's subject and carries the session id and sequence `(seq0 + i) as u32`. It is not final, has the session's format, and its payload decodes to processed frame i. |
| Session.AudioPublicationsOnSubject | src/session/session.rs:127-132 | Whatever fails, every publication of the audio loop is a non-final envelope for this meeting on its subject. At most one is published per frame. |
| Session.FinalMarker | src/session/session.rs:142-154 | Unless it fails, exactly one final marker is published. It has an empty payload, `final = true`, and the number of frames taken as its sequence. |
| Session.LoopPublicationsSpec | src/session/session.rs:108-138 | The loop's publications after n frames are the pipeline's publications for the first n frames. |
| Session.LoopPublicationsProperties | src/session/session.rs:108-138 | Every envelope of the loop is for this meeting and not final. Without faults, frame i has sequence `(seq0 + i) as u32` and a payload decoding to processed frame i. |
| Session.FinalState | src/session/session.rs:142-154 | The final marker, published after the loop, completes the audio task's result. |
| Session.SegmentsAppend | src/session/session.rs:182-221 | The log built from two batches of messages is the two logs in order. |
| Session.SegmentOfOne | src/session/session.rs:188-207 | A message adds one segment iff it parses and carries this session's id; that segment holds its text, confidence and partial flag. |
| Session.SegmentsOfOthers | src/session/session.rs:188-193 | Unparsable messages and messages for other sessions add nothing. |
| Session.SegmentsOfSession | src/session/session.rs:188-207 | Messages all addressed to this session give one segment each, in order. |
| Session.RecordingSession.constructor | src/session/session.rs:56-66 | A new session is not recording, has both counters at 0, and has an empty log. |
| Session.RecordingSession.New | src/session/session.rs:46-67 | Failing to connect is the error `Failed to connect to NATS`. Otherwise the result is a fresh, idle session publishing for its own meeting. |
| Session.RecordingSession.PublishOne | src/session/session.rs:116-137 | A frame is published with the current sequence number, which then advances by one. The chunk counter follows the every-100 rule. |
| Session.RecordingSession.AudioStep | src/session/session.rs:108-138 | One loop iteration keeps the loop invariant: the counters and publications are those of the first i + 1 frames. |
| Session.RecordingSession.AudioLoop | src/session/session.rs:108-138 | After the loop, the counters and publications are those of the first `Handled` frames. |
| Session.RecordingSession.PublishFinal | src/session/session.rs:142-154 | It appends the final marker, numbered with the current sequence counter. |
| Session.RecordingSession.RunAudioTask | src/session/session.rs:105-160 | The audio task leaves the counters and publications as the processed, packed, numbered frames and the final marker determine. The flag and the log are untouched. |
| Session.RecordingSession.RunTranscriptTask | src/session/session.rs:179-224 | The log gains exactly the segments of the handled messages addressed to this session, in order. Nothing else changes. |
| Session.RecordingSession.Receive | src/session/session.rs:167-229 | When the subscription fails, start fails with its error and no message is logged. Otherwise the transcript task runs. |
| Session.RecordingSession.StartTasks | src/session/session.rs:97-233 | Once the backend runs, the audio task runs, then the subscription and the transcript task. The outcome is the subscription's. |
| Session.RecordingSession.Start | src/session/session.rs:70-234 | A start while recording changes nothing and succeeds. Otherwise the flag is set before anything can fail and stays set. A backend create or start failure is reported with its context, with nothing published. On success the tasks have run. |
| Session.RecordingSession.Stop | src/session/session.rs:237-290 | Afterwards the session is not recording and nothing else changed. The statistics report the chunk counter and the log length. |
| Nats.AudioFrameSubject | src/nats/client.rs:34 | The subject is `audio.frame.meeting-` followed by the meeting id. |
| Nats.SubjectRoundTrip | src/nats/client.rs:34 | The meeting id can be read back from its subject. |
| Nats.SubjectInjective | src/nats/client.rs:34 | Two meetings share a subject iff they are the same meeting. |
| Nats.SplitFirst | src/nats/client.rs:65 | Splitting a subject at its first dot gives the first token and then the tokens of the rest. |
| Nats.SplitNoDot | src/nats/client.rs:65 | A subject without a dot is a single token. |
| Nats.TranscriptTokens | src/nats/client.rs:65 | The transcript subject's tokens are `stt`, `text` and the tail wildcard `>`. |
| Nats.TranscriptSubscriptionMatches | src/nats/client.rs:61-76 | The subscription receives exactly the subjects with at least three tokens, the first two being `stt` and `text`. |
| Nats.AudioNotEchoed | src/nats/client.rs:34-65 | The session's own audio subjects never match its transcript subscription. |
| Nats.Connect | src/nats/client.rs:13-23 | Connecting succeeds unless the server is unreachable. The client keeps the meeting id; the failure carries the `Failed to connect to NATS` context. |
| Nats.AudioFrameEnvelope | src/nats/client.rs:34-44 | The message carries the meeting id as session id, the given index as sequence, and the given rate, channels, final flag and clock stamp. |
| Nats.EnvelopeSubject | src/nats/client.rs:34 | An envelope is published on the subject of its client's meeting. |
| Nats.EnvelopePayload | src/nats/client.rs:39 | The `pcm` field decodes back to the given bytes. It is 4 * ceil(n / 3) characters long, and empty exactly when there are no bytes. |
| Nats.PublishAudioFrame | src/nats/client.rs:26-58 | Publishing succeeds unless the bus fails. The published value is the envelope, and the failure carries the `Failed to publish audio frame` context. |
| Nats.SubscribeTranscripts | src/nats/client.rs:61-76 | The subscription is always on `stt.text.>`, whatever the meeting. A failure carries the `Failed to subscribe to transcripts` context. |
| Nats.FinalMarkerEnvelope | tests/nats_tests.rs:31-49 | The final marker has an empty payload, `final = true` and the given sequence. |
| Nats.TestMeetingSubject | tests/nats_tests.rs:5-28 | The test meeting's audio subject is `audio.frame.meeting-test-meeting`. |
| Nats.TestMeetingEnvelope | tests/nats_tests.rs:5-28 | The serialization test's envelope has the test meeting's id, 16000 Hz, mono, sequence 0 and `final = false`. |
| Nats.TestMeetingPayload | tests/nats_tests.rs:100-138 | 100 bytes encode to 136 base64 characters that decode back to them. |
| Base64.CharOf | src/nats/client.rs:39 | No sextet is encoded as the padding character. |
| Base64.ValueOf | src/nats/client.rs:39 | The padding character is not a digit of the alphabet. |
| Base64.ValueOfCharOf | src/nats/client.rs:39 | Each alphabet character decodes to the sextet it encodes. |
| Base64.CharOfValueOf | src/nats/client.rs:39 | Each character that decodes is the encoding of its value. |
| Base64.EncodeEmpty | tests/nats_tests.rs:31-49 | The empty payload encodes to the empty string. |
| Base64.EncodeLength | src/nats/client.rs:39 | n bytes encode to 4 * ceil(n / 3) characters. |
| Base64.EncodeAlphabet | src/nats/client.rs:39 | Encoded characters are alphabet characters, except for padding in the last two positions. |
| Base64.TripleRoundTrip | src/nats/client.rs:39 | Three bytes encode to a quantum that decodes back to them. |
| Base64.SingleRoundTrip | src/nats/client.rs:39 | A trailing byte encodes with `==` padding and decodes back. |
| Base64.PairRoundTrip | src/nats/client.rs:39 | Two trailing bytes encode with `=` padding and decode back. |
| Base64.DecodeEncode | src/nats/client.rs:39 | Decoding an encoding gives back the bytes. |
| Base64.QuantumCanonical | src/nats/client.rs:39 | A quantum that decodes is the canonical encoding of its bytes. Only the last quantum may be short. |
| Base64.EncodeDecode | src/nats/client.rs:39 | Any string the strict decoder accepts is the encoding of what it decodes to. |
| Base64.RfcVectorsShort | src/nats/client.rs:39 | The RFC 4648 test vectors for "", "f", "fo" and "foo". |
| Base64.RfcVectorsLong | src/nats/client.rs:39 | The RFC 4648 test vectors for "foob", "fooba" and "foobar". |
| Base64.RejectedInputs | src/nats/client.rs:39 | The decoder rejects a bad length, padding that is not final, non-zero pad bits and characters outside the alphabet. |
| Handlers.MeetingIdOf | src/http/handlers.rs:59-61 | The meeting id is the one requested, or `meeting-` and the fresh uuid. |
| Handlers.StartConfig | src/http/handlers.rs:80-86 | A started session gets the meeting id, the requested chunk duration or 300 s, 16000 Hz, mono and the local bus. |
| Handlers.StartConfigDefaults | src/http/handlers.rs:80-86 | A request with no fields gets exactly `SessionConfig::default` for the same uuid. |
| Handlers.StartConfigDivisible | src/http/handlers.rs:80-86 | The 16 kHz target rate can process every frame without a division by zero. |
| Handlers.AppState.constructor | src/http/state.rs:1-26 | The registry starts empty. |
| Handlers.AppState.StartRecording | src/http/handlers.rs:54-132 | A busy id is a conflict with the source's message, and the registry is unchanged. A session creation or start failure is a 500 with the failing context, and the registry is unchanged. Otherwise the registry gains exactly this id, mapped to a fresh, started session with the request's configuration, and the response says `recording`. |
| Handlers.AppState.StopRecording | src/http/handlers.rs:136-188 | The id is absent afterwards in every case, and other sessions are untouched. An unknown id is not found. A registered session is stopped and its final statistics returned. |
| Handlers.AppState.MeetingStatus | src/http/handlers.rs:192-220 | A registered id answers 200 with its session's statistics. An unknown id is not found. |
| Handlers.AppState.MeetingTranscript | src/http/handlers.rs:224-243 | A registered id answers 200 with its session's log. An unknown id is not found. |
| Handlers.AppState.RegisteredAreRecording | src/http/handlers.rs:115-119 | Every registered meeting reports itself as recording. |

## Left out

- Concurrency. The tokio tasks, channels, atomics, `Mutex`/`RwLock` and `JoinHandle` awaits are run sequentially. Each spawned task runs to completion when it is spawned, and the stop it observes is the parameter `stopAt`.
- The race between `start_recording`'s check and its insert (src/http/handlers.rs:66-77 and 116-119) is out of scope, because the model is sequential.
- Session.RecordingSession.Start: a start whose transcript subscription fails returns an error. The audio task it already spawned then keeps running, but no registry entry owns it. The model leaves that task's effects in the session object. The HTTP layer drops that object.
- Clocks and randomness are parameters: the frame timestamps, the RFC 3339 stamp of each envelope (`AudioInput.clock`) and the uuid of a new meeting id. `started_at`, `duration_secs` and the segments' receive-time timestamps are left out.
- Floating point. The transcript `confidence` is carried through as an opaque value. The `f64` conversions used in log lines are left out.
- Serde JSON (de)serialisation is left out. A received payload is either a parsed `TranscriptMessage` or unparsable. `serde_json::to_vec` of the envelope cannot fail and is not modelled.
- The hound WAV codec is left out beyond "append samples, finalize", as is `fs::create_dir_all` beyond its failure.
- Logging, console printing and the backend's `stop` at the end of the audio task are left out. The audio backend and its FFI are inputs: their frames, or their failures.
- src/nats/messages.rs declares `chunk_index` and `confidence: f32`, which disagree with their users. The model follows src/nats/client.rs (`sequence`) and src/session/session.rs (`Option` confidence).
- `NatsClient::close`, `health_check`, the routes, and the request's unused `title` carry no logic and are not modelled.
- Chunk.ChunkedRecorder.Record, Chunk.ChunkedRecorder.RecordFrame, Chunk.ChunkedRecorder.ShouldStartNewChunk: they require time-ordered frames, at or after the open chunk's start. The source computes `ts - start` in `u64`, which underflows (a panic or a wrap) on an earlier frame; that case is not modelled.
- Session.RecordingSession.Start, Session.RecordingSession.RunAudioTask, Session.ProcessFrame, Session.DownsampleFrame: they require the target rate to be non-zero unless the frame already has it. The source divides by the target rate, which panics for 0.
- Session.RecordingSession.Stop: `stop` and `get_stats` cannot fail, so `stop_recording`'s 500 branch and `get_meeting_status`'s 500 branch are dead and not modelled.
- Session.SessionStats: the `usize` counters are unbounded integers. The `u32` sequence number is explicit (`AsU32`, the truncation of `seq as u32`).
- The mixer's `HashMap` iteration order is the fixed parameter `sourceOrder`. Mixing is proved independent of that order (`Mixer.MixFramesOrderIndependent`, `Mixer.CleanedForAll`).
- src/audio/mixer.rs has no fixed-size re-framing and does not wait for every source to be ready. The model follows the code.
- Chunk.CreateError: the path is rendered between plain double quotes. Rust's `{:?}` (src/audio/chunk.rs:194) also escapes `"`, `\` and control characters inside the path; that escaping is not modelled.
- Chunk.DurationMs, Handlers.StartConfig: the chunk duration is an unbounded integer. `chunk_duration_secs * 1000` in `u64` (src/audio/chunk.rs:145) overflows for durations above about 1.8e16 s; that is not modelled.
- The doc comment at src/audio/mixer.rs:27 says an empty `enabled_sources` includes every source. The code (src/audio/mixer.rs:116) rejects every frame in that case, and the model follows the code (`Mixer.NoSourceEnabledMixesNothing`).
- The doc comment at src/audio/chunk.rs:38 says `start_ms` counts from the meeting start. The code stores the frame's own timestamp (src/audio/chunk.rs:161), and the model follows the code (`Chunk.RecordFirst`).
- Decimating interleaved stereo before folding it to mono (src/session/session.rs:299-317) keeps left-channel samples only, whereas the doc comment of `stereo_to_mono` (src/session/session.rs:347) speaks of summing both channels. The model follows the code (`Session.StereoHalfRateKeepsLeft`).
- `RecordingSession::start` does not wait for the tasks it spawns. In the model, `Start` returns with their effects applied, and `Stop` only clears the flag.
