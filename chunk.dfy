/** The chunked recorder (src/audio/chunk.rs): it cuts an ordered frame
    stream into fixed-duration WAV chunks and reports each chunk's metadata.
    The WAV writer is an append-only sample sequence with a `finalized`
    flag; file-system faults are parameters. */
module Chunk {
  import opened Wrappers
  import opened Audio

  // ---------------------------------------------------------------------------
  // Configuration and metadata
  // ---------------------------------------------------------------------------

  datatype ChunkConfig = ChunkConfig(chunkDurationSecs: nat, outputDir: string, meetingId: string)

  /** `ChunkConfig::new`: five-minute chunks. */
  function NewChunkConfig(meetingId: string, outputDir: string): (c: ChunkConfig)
    ensures c.chunkDurationSecs == 300
    ensures c.meetingId == meetingId && c.outputDir == outputDir
  {
    ChunkConfig(300, outputDir, meetingId)
  }

  /** The rotation threshold `chunk_duration_secs * 1000`. */
  function DurationMs(cfg: ChunkConfig): nat {
    cfg.chunkDurationSecs * 1000
  }

  datatype ChunkMetadata = ChunkMetadata(
    chunkIndex: nat,
    filePath: string,
    startMs: nat,
    endMs: nat,
    sampleRate: nat,
    channels: nat,
    sampleCount: nat)

  // ---------------------------------------------------------------------------
  // Chunk file names: `output_dir.join(format!("{}-chunk-{:03}.wav", id, index))`
  // ---------------------------------------------------------------------------

  function DigitChar(d: nat): char
    requires d < 10
  {
    ('0' as int + d) as char
  }

  function DigitValue(c: char): nat {
    if '0' <= c <= '9' then (c as int - '0' as int) as nat else 0
  }

  /** The shortest decimal rendering of `n` (`{}` of a `usize`). */
  function Decimal(n: nat): string
    decreases n
  {
    if n < 10 then [DigitChar(n)] else Decimal(n / 10) + [DigitChar(n % 10)]
  }

  /** `{:03}`: the decimal rendering, left-padded with zeros to three digits. */
  function Pad3(n: nat): string {
    var d := Decimal(n);
    if |d| >= 3 then d else seq(3 - |d|, _ => '0') + d
  }

  /** Reading a string of digits back as a number. */
  function ParseDecimal(s: string): nat {
    if s == [] then 0 else ParseDecimal(s[..|s| - 1]) * 10 + DigitValue(s[|s| - 1])
  }

  function ChunkFileName(cfg: ChunkConfig, index: nat): string {
    cfg.meetingId + "-chunk-" + Pad3(index) + ".wav"
  }

  /** `Path::join` on Unix: an absolute name replaces the directory; otherwise
      a separator is inserted unless the directory is empty or already ends
      with one. */
  function JoinPath(dir: string, name: string): string {
    if |name| > 0 && name[0] == '/' then name
    else if dir == [] || dir[|dir| - 1] == '/' then dir + name
    else dir + "/" + name
  }

  function ChunkPath(cfg: ChunkConfig, index: nat): string {
    JoinPath(cfg.outputDir, ChunkFileName(cfg, index))
  }

  // ---------------------------------------------------------------------------
  // The WAV writer, abstracted
  // ---------------------------------------------------------------------------

  /** A `ChunkWriter` as a value: its metadata, the samples its WAV file holds,
      whether the hound writer is still present, and whether it was
      finalized. */
  datatype WriterView = WriterView(
    metadata: ChunkMetadata,
    samples: seq<I16>,
    writerOpen: bool,
    finalized: bool)

  const WriteError: string := "Failed to write sample to WAV"
  const FinalizeError: string := "Failed to finalize WAV file"
  const OutputDirError: string := "Failed to create output directory"

  /** The `{:?}` rendering of a path is modelled as the path in quotes. */
  function CreateError(path: string): string {
    "Failed to create WAV file: \"" + path + "\""
  }

  /** A writer just created by `ChunkWriter::new`. */
  function FreshWriter(path: string, index: nat, startMs: nat, sampleRate: nat, channels: nat): WriterView {
    WriterView(ChunkMetadata(index, path, startMs, startMs, sampleRate, channels, 0), [], true, false)
  }

  datatype WriteResult = WriteResult(writer: WriterView, outcome: Outcome)

  /** `write_frame`: with the writer present, append the frame's samples; a
      write fault after `failAt` samples leaves those samples in the file and
      the metadata untouched. Otherwise record the frame's timestamp as the end
      and count its samples. Without a writer nothing happens. */
  function WriteFrameSpec(w: WriterView, frame: AudioFrame, failAt: Option<nat>): WriteResult {
    if !w.writerOpen then WriteResult(w, Pass)
    else if failAt.Some? && failAt.value < |frame.samples| then
      WriteResult(w.(samples := w.samples + frame.samples[..failAt.value]), Fail(WriteError))
    else
      WriteResult(
        w.(samples := w.samples + frame.samples,
           metadata := w.metadata.(endMs := frame.timestampMs,
                                   sampleCount := w.metadata.sampleCount + |frame.samples|)),
        Pass)
  }

  datatype FinishResult = FinishResult(writer: WriterView, result: Result<ChunkMetadata>)

  /** `finish`: take the writer and finalize it; the metadata is returned
      unless finalizing fails. `Drop` performs the same transition and only
      logs the error. */
  function FinishSpec(w: WriterView, finalizeFails: bool): FinishResult {
    if !w.writerOpen then FinishResult(w, Success(w.metadata))
    else if finalizeFails then FinishResult(w.(writerOpen := false), Failure(FinalizeError))
    else FinishResult(w.(writerOpen := false, finalized := true), Success(w.metadata))
  }

  // ---------------------------------------------------------------------------
  // The recorder as a state machine over values
  // ---------------------------------------------------------------------------

  /** Which file-system operations fail: creating the file of a chunk index,
      writing the frame at an input position (after the given number of its
      samples), finalizing the file of a chunk index. */
  datatype IoFaults = IoFaults(createFails: set<nat>, writeFails: map<nat, nat>, finalizeFails: set<nat>)

  const NoFaults: IoFaults := IoFaults({}, map[], {})

  /** The recorder's fields, with the open `ChunkWriter` as a value, plus the
      writers it has already finished or abandoned (the files on disk). */
  datatype RecState = RecState(
    open: Option<WriterView>,
    chunkIndex: nat,
    meetingStartMs: nat,
    closed: seq<WriterView>)

  const FreshRecorder: RecState := RecState(None, 0, 0, [])

  datatype StepResult = StepResult(state: RecState, emitted: seq<ChunkMetadata>, error: Option<string>)

  /** `should_start_new_chunk`, with `ts - start >= d` written as
      `ts >= start + d` (equal whenever `ts >= start`). */
  predicate ShouldRotate(cfg: ChunkConfig, open: Option<WriterView>, frame: AudioFrame) {
    open.None? || frame.timestampMs >= open.value.metadata.startMs + DurationMs(cfg)
  }

  /** `if let Some(chunk) = self.current_chunk.take() { chunk.finish()? ... }`. */
  function CloseOpen(st: RecState, faults: IoFaults): StepResult {
    if st.open.None? then StepResult(st, [], None)
    else
      var fr := FinishSpec(st.open.value, st.open.value.metadata.chunkIndex in faults.finalizeFails);
      var st' := st.(open := None, closed := st.closed + [fr.writer]);
      if fr.result.Failure? then StepResult(st', [], Some(fr.result.error))
      else StepResult(st', [fr.result.value], None)
  }

  /** `start_new_chunk` followed by storing the writer as the open chunk; the
      index advances only when the file was created. */
  function OpenNew(cfg: ChunkConfig, st: RecState, frame: AudioFrame, faults: IoFaults): StepResult {
    var path := ChunkPath(cfg, st.chunkIndex);
    if st.chunkIndex in faults.createFails then StepResult(st, [], Some(CreateError(path)))
    else
      StepResult(
        st.(open := Some(FreshWriter(path, st.chunkIndex, frame.timestampMs, frame.sampleRate, frame.channels)),
            chunkIndex := st.chunkIndex + 1),
        [], None)
  }

  /** `if let Some(chunk) = &mut self.current_chunk { chunk.write_frame(&frame)? }`. */
  function WriteOpen(st: RecState, frame: AudioFrame, failAt: Option<nat>): StepResult {
    if st.open.None? then StepResult(st, [], None)
    else
      var wr := WriteFrameSpec(st.open.value, frame, failAt);
      StepResult(st.(open := Some(wr.writer)), [], if wr.outcome.Fail? then Some(wr.outcome.error) else None)
  }

  function WriteFault(faults: IoFaults, pos: nat): Option<nat> {
    if pos in faults.writeFails then Some(faults.writeFails[pos]) else None
  }

  /** One iteration of the receive loop of `record` for the frame at input
      position `pos`. */
  function Step(cfg: ChunkConfig, st: RecState, frame: AudioFrame, pos: nat, faults: IoFaults): StepResult {
    var st0 := if st.meetingStartMs == 0 then st.(meetingStartMs := frame.timestampMs) else st;
    if ShouldRotate(cfg, st0.open, frame) then Rotate(cfg, st0, frame, pos, faults)
    else WriteOpen(st0, frame, WriteFault(faults, pos))
  }

  /** A rotation: finish the open chunk, start the next one at `frame` and
      write the frame to it; the first error stops it. */
  function Rotate(cfg: ChunkConfig, st: RecState, frame: AudioFrame, pos: nat, faults: IoFaults): StepResult {
    var c := CloseOpen(st, faults);
    if c.error.Some? then c
    else
      var o := OpenNew(cfg, c.state, frame, faults);
      if o.error.Some? then StepResult(o.state, c.emitted, o.error)
      else
        var w := WriteOpen(o.state, frame, WriteFault(faults, pos));
        StepResult(w.state, c.emitted, w.error)
  }

  /** The receive loop: the metadata pushed so far, stopping at the first
      error. */
  function Run(cfg: ChunkConfig, st: RecState, acc: seq<ChunkMetadata>, frames: seq<AudioFrame>,
               pos: nat, faults: IoFaults): StepResult
    decreases |frames|
  {
    if frames == [] then StepResult(st, acc, None)
    else
      var s := Step(cfg, st, frames[0], pos, faults);
      if s.error.Some? then StepResult(s.state, acc + s.emitted, s.error)
      else Run(cfg, s.state, acc + s.emitted, frames[1..], pos + 1, faults)
  }

  datatype RecordResult = RecordResult(state: RecState, result: Result<seq<ChunkMetadata>>)

  /** `record`: the receive loop, then the final chunk is finished. */
  function RecordSpec(cfg: ChunkConfig, st: RecState, frames: seq<AudioFrame>, faults: IoFaults): RecordResult {
    var run := Run(cfg, st, [], frames, 0, faults);
    if run.error.Some? then RecordResult(run.state, Failure(run.error.value))
    else
      var c := CloseOpen(run.state, faults);
      if c.error.Some? then RecordResult(c.state, Failure(c.error.value))
      else RecordResult(c.state, Success(run.emitted + c.emitted))
  }

  // ---------------------------------------------------------------------------
  // The reference chunking
  // ---------------------------------------------------------------------------

  /** Put one frame into the chunking built so far: it opens a new group when
      there is none, or when it lies at least a chunk duration after the start
      of the last group; otherwise it joins the last group. */
  function Place(cfg: ChunkConfig, gs: seq<seq<AudioFrame>>, f: AudioFrame): seq<seq<AudioFrame>> {
    if gs == [] || gs[|gs| - 1] == [] || f.timestampMs >= gs[|gs| - 1][0].timestampMs + DurationMs(cfg)
    then gs + [[f]]
    else gs[..|gs| - 1] + [gs[|gs| - 1] + [f]]
  }

  function PlaceAll(cfg: ChunkConfig, gs: seq<seq<AudioFrame>>, frames: seq<AudioFrame>): seq<seq<AudioFrame>>
    decreases |frames|
  {
    if frames == [] then gs else PlaceAll(cfg, Place(cfg, gs, frames[0]), frames[1..])
  }

  /** The frames of each chunk, in order. */
  function Chunking(cfg: ChunkConfig, frames: seq<AudioFrame>): seq<seq<AudioFrame>> {
    PlaceAll(cfg, [], frames)
  }

  function Flatten<T>(gs: seq<seq<T>>): seq<T> {
    if gs == [] then [] else Flatten(gs[..|gs| - 1]) + gs[|gs| - 1]
  }

  /** The samples of a group of frames, concatenated. */
  function SamplesOf(frames: seq<AudioFrame>): seq<I16> {
    if frames == [] then [] else SamplesOf(frames[..|frames| - 1]) + frames[|frames| - 1].samples
  }

  /** The metadata of chunk `i` holding the frames `g`. */
  function Meta(cfg: ChunkConfig, i: nat, g: seq<AudioFrame>): ChunkMetadata
    requires g != []
  {
    ChunkMetadata(i, ChunkPath(cfg, i), g[0].timestampMs, g[|g| - 1].timestampMs,
                  g[0].sampleRate, g[0].channels, |SamplesOf(g)|)
  }

  function SumCounts(ms: seq<ChunkMetadata>): nat {
    if ms == [] then 0 else SumCounts(ms[..|ms| - 1]) + ms[|ms| - 1].sampleCount
  }

  function TotalSamples(frames: seq<AudioFrame>): nat {
    if frames == [] then 0 else TotalSamples(frames[..|frames| - 1]) + |frames[|frames| - 1].samples|
  }

  predicate Sorted(frames: seq<AudioFrame>) {
    forall i, j :: 0 <= i < j < |frames| ==> frames[i].timestampMs <= frames[j].timestampMs
  }

  // ---------------------------------------------------------------------------
  // The reference chunking partitions the stream by the rotation rule
  // ---------------------------------------------------------------------------

  /** Every group is non-empty, a chunk holds only frames less than a chunk
      duration after its first frame, and every chunk after the first starts
      at least a chunk duration after the previous one. */
  ghost predicate WellChunked(cfg: ChunkConfig, gs: seq<seq<AudioFrame>>) {
    && (forall j :: 0 <= j < |gs| ==> gs[j] != [])
    && (forall j, k :: 0 <= j < |gs| && 0 < k < |gs[j]| ==>
          gs[j][k].timestampMs < gs[j][0].timestampMs + DurationMs(cfg))
    && (forall j :: 0 < j < |gs| ==> gs[j][0].timestampMs >= gs[j - 1][0].timestampMs + DurationMs(cfg))
  }

  lemma FlattenSnoc<T>(gs: seq<seq<T>>, g: seq<T>)
    ensures Flatten(gs + [g]) == Flatten(gs) + g
  {
    assert (gs + [g])[..|gs|] == gs;
  }

  lemma PlaceFlatten(cfg: ChunkConfig, gs: seq<seq<AudioFrame>>, f: AudioFrame)
    ensures Flatten(Place(cfg, gs, f)) == Flatten(gs) + [f]
  {
    if gs == [] || gs[|gs| - 1] == [] || f.timestampMs >= gs[|gs| - 1][0].timestampMs + DurationMs(cfg) {
      FlattenSnoc(gs, [f]);
    } else {
      var init := gs[..|gs| - 1];
      var last := gs[|gs| - 1];
      FlattenSnoc(init, last + [f]);
      assert gs == init + [last];
      FlattenSnoc(init, last);
    }
  }

  lemma PlaceWellChunked(cfg: ChunkConfig, gs: seq<seq<AudioFrame>>, f: AudioFrame)
    requires WellChunked(cfg, gs)
    ensures WellChunked(cfg, Place(cfg, gs, f))
  {
    var p := Place(cfg, gs, f);
    if gs == [] || gs[|gs| - 1] == [] || f.timestampMs >= gs[|gs| - 1][0].timestampMs + DurationMs(cfg) {
      assert p == gs + [[f]];
    } else {
      var n := |gs| - 1;
      assert p == gs[..n] + [gs[n] + [f]];
      assert forall j :: 0 <= j < n ==> p[j] == gs[j];
      assert p[n][0] == gs[n][0];
    }
  }

  lemma {:induction false} PlaceAllFlatten(cfg: ChunkConfig, gs: seq<seq<AudioFrame>>, frames: seq<AudioFrame>)
    ensures Flatten(PlaceAll(cfg, gs, frames)) == Flatten(gs) + frames
    decreases |frames|
  {
    if frames != [] {
      var p := Place(cfg, gs, frames[0]);
      PlaceFlatten(cfg, gs, frames[0]);
      PlaceAllFlatten(cfg, p, frames[1..]);
      calc {
        Flatten(PlaceAll(cfg, gs, frames));
        Flatten(PlaceAll(cfg, p, frames[1..]));
        Flatten(p) + frames[1..];
        (Flatten(gs) + [frames[0]]) + frames[1..];
        { assert [frames[0]] + frames[1..] == frames; }
        Flatten(gs) + frames;
      }
    }
  }

  lemma {:induction false} PlaceAllWellChunked(cfg: ChunkConfig, gs: seq<seq<AudioFrame>>, frames: seq<AudioFrame>)
    requires WellChunked(cfg, gs)
    ensures WellChunked(cfg, PlaceAll(cfg, gs, frames))
    decreases |frames|
  {
    if frames != [] {
      PlaceWellChunked(cfg, gs, frames[0]);
      PlaceAllWellChunked(cfg, Place(cfg, gs, frames[0]), frames[1..]);
    }
  }

  /** The chunks hold every frame exactly once, in arrival order, and obey the
      rotation rule. */
  lemma ChunkingPartitions(cfg: ChunkConfig, frames: seq<AudioFrame>)
    ensures Flatten(Chunking(cfg, frames)) == frames
    ensures WellChunked(cfg, Chunking(cfg, frames))
  {
    PlaceAllFlatten(cfg, [], frames);
    PlaceAllWellChunked(cfg, [], frames);
  }

  // ---------------------------------------------------------------------------
  // Without faults, `record` produces the reference chunking
  // ---------------------------------------------------------------------------

  /** The open writer of chunk `i` holding frames `g`. */
  function OpenView(cfg: ChunkConfig, i: nat, g: seq<AudioFrame>): WriterView
    requires g != []
  {
    WriterView(Meta(cfg, i, g), SamplesOf(g), true, false)
  }

  /** The finished writer of chunk `i` holding frames `g`. */
  function ClosedView(cfg: ChunkConfig, i: nat, g: seq<AudioFrame>): WriterView
    requires g != []
  {
    WriterView(Meta(cfg, i, g), SamplesOf(g), false, true)
  }

  /** The recorder state `st` with pushed metadata `acc` is the one that
      chunking `gs` calls for: every chunk but the last is finished and
      reported, the last is open. */
  ghost predicate Corresponds(cfg: ChunkConfig, st: RecState, acc: seq<ChunkMetadata>, gs: seq<seq<AudioFrame>>) {
    && st.chunkIndex == |gs|
    && (forall j :: 0 <= j < |gs| ==> gs[j] != [])
    && (gs == [] ==> st.open.None? && st.closed == [] && acc == [])
    && (gs != [] ==>
          && st.open == Some(OpenView(cfg, |gs| - 1, gs[|gs| - 1]))
          && |st.closed| == |gs| - 1 && |acc| == |gs| - 1
          && (forall j :: 0 <= j < |gs| - 1 ==> st.closed[j] == ClosedView(cfg, j, gs[j]))
          && (forall j :: 0 <= j < |gs| - 1 ==> acc[j] == Meta(cfg, j, gs[j])))
  }

  lemma SamplesOfSnoc(g: seq<AudioFrame>, f: AudioFrame)
    ensures SamplesOf(g + [f]) == SamplesOf(g) + f.samples
  {
    assert (g + [f])[..|g|] == g;
  }

  /** A frame that rotates: the open chunk is finished and reported, and a
      new chunk holding just this frame is open. */
  lemma StepRotates(cfg: ChunkConfig, st: RecState, acc: seq<ChunkMetadata>, gs: seq<seq<AudioFrame>>,
                    f: AudioFrame, pos: nat)
    requires Corresponds(cfg, st, acc, gs)
    requires gs == [] || f.timestampMs >= gs[|gs| - 1][0].timestampMs + DurationMs(cfg)
    ensures var s := Step(cfg, st, f, pos, NoFaults);
      s.error == None && Corresponds(cfg, s.state, acc + s.emitted, gs + [[f]])
  {
    var st0 := if st.meetingStartMs == 0 then st.(meetingStartMs := f.timestampMs) else st;
    var c := CloseOpen(st0, NoFaults);
    var o := OpenNew(cfg, c.state, f, NoFaults);
    var w := WriteOpen(o.state, f, None);
    assert Step(cfg, st, f, pos, NoFaults) == Rotate(cfg, st0, f, pos, NoFaults);
    assert Rotate(cfg, st0, f, pos, NoFaults) == StepResult(w.state, c.emitted, w.error);
    OpenThenWrite(cfg, c.state, f);
    if gs != [] {
      assert c.emitted == [Meta(cfg, |gs| - 1, gs[|gs| - 1])];
      assert c.state.closed == st.closed + [ClosedView(cfg, |gs| - 1, gs[|gs| - 1])];
    }
    CorrespondsRotated(cfg, st, acc, gs, f, w.state, acc + c.emitted);
  }

  /** The state a rotation leaves: the old open chunk finished and reported,
      and chunk `|gs|` open holding `f`. */
  lemma CorrespondsRotated(cfg: ChunkConfig, st: RecState, acc: seq<ChunkMetadata>, gs: seq<seq<AudioFrame>>,
                           f: AudioFrame, st2: RecState, acc2: seq<ChunkMetadata>)
    requires Corresponds(cfg, st, acc, gs)
    requires st2.chunkIndex == |gs| + 1 && st2.open == Some(OpenView(cfg, |gs|, [f]))
    requires gs == [] ==> st2.closed == st.closed && acc2 == acc
    requires gs != [] ==>
      && st2.closed == st.closed + [ClosedView(cfg, |gs| - 1, gs[|gs| - 1])]
      && acc2 == acc + [Meta(cfg, |gs| - 1, gs[|gs| - 1])]
    ensures Corresponds(cfg, st2, acc2, gs + [[f]])
  {
    var gs2 := gs + [[f]];
    assert forall j :: 0 <= j < |gs| ==> gs2[j] == gs[j];
  }

  /** Opening a chunk at a frame and writing the frame into it gives the open
      chunk holding just that frame. */
  lemma OpenThenWrite(cfg: ChunkConfig, st: RecState, f: AudioFrame)
    ensures WriteOpen(OpenNew(cfg, st, f, NoFaults).state, f, None)
         == StepResult(st.(open := Some(OpenView(cfg, st.chunkIndex, [f])), chunkIndex := st.chunkIndex + 1), [], None)
  {
    SamplesOfSnoc([], f);
    assert [] + [f] == [f];
    assert [] + f.samples == f.samples;
  }

  /** A frame that does not rotate joins the open chunk. */
  lemma StepJoins(cfg: ChunkConfig, st: RecState, acc: seq<ChunkMetadata>, gs: seq<seq<AudioFrame>>,
                  f: AudioFrame, pos: nat)
    requires Corresponds(cfg, st, acc, gs)
    requires gs != [] && f.timestampMs < gs[|gs| - 1][0].timestampMs + DurationMs(cfg)
    ensures var s := Step(cfg, st, f, pos, NoFaults);
      s.error == None && Corresponds(cfg, s.state, acc + s.emitted, gs[..|gs| - 1] + [gs[|gs| - 1] + [f]])
  {
    var s := Step(cfg, st, f, pos, NoFaults);
    var n := |gs| - 1;
    SamplesOfSnoc(gs[n], f);
    assert (gs[n] + [f])[0] == gs[n][0];
    assert s.state.open == Some(OpenView(cfg, n, gs[n] + [f]));
    assert s.emitted == [];
  }

  lemma StepCorresponds(cfg: ChunkConfig, st: RecState, acc: seq<ChunkMetadata>, gs: seq<seq<AudioFrame>>,
                        f: AudioFrame, pos: nat)
    requires Corresponds(cfg, st, acc, gs)
    ensures var s := Step(cfg, st, f, pos, NoFaults);
      s.error == None && Corresponds(cfg, s.state, acc + s.emitted, Place(cfg, gs, f))
  {
    if gs == [] || f.timestampMs >= gs[|gs| - 1][0].timestampMs + DurationMs(cfg) {
      StepRotates(cfg, st, acc, gs, f, pos);
    } else {
      StepJoins(cfg, st, acc, gs, f, pos);
    }
  }

  lemma {:induction false} RunCorresponds(cfg: ChunkConfig, st: RecState, acc: seq<ChunkMetadata>,
                                          gs: seq<seq<AudioFrame>>, frames: seq<AudioFrame>, pos: nat)
    requires Corresponds(cfg, st, acc, gs)
    ensures var r := Run(cfg, st, acc, frames, pos, NoFaults);
      r.error == None && Corresponds(cfg, r.state, r.emitted, PlaceAll(cfg, gs, frames))
    decreases |frames|
  {
    if frames != [] {
      var s := Step(cfg, st, frames[0], pos, NoFaults);
      StepCorresponds(cfg, st, acc, gs, frames[0], pos);
      RunCorresponds(cfg, s.state, acc + s.emitted, Place(cfg, gs, frames[0]), frames[1..], pos + 1);
    }
  }

  /** A fresh recorder without file-system faults finishes every chunk of the
      reference chunking, in order, and reports its metadata: consecutive
      indices from 0, the zero-padded file name, the first and last frame's
      timestamps, the first frame's format and the number of samples. */
  lemma RecordWithoutFaults(cfg: ChunkConfig, frames: seq<AudioFrame>)
    ensures var rr := RecordSpec(cfg, FreshRecorder, frames, NoFaults);
      var gs := Chunking(cfg, frames);
      && rr.result.Success?
      && rr.state.open.None? && rr.state.chunkIndex == |gs|
      && |rr.result.value| == |gs| && |rr.state.closed| == |gs|
      && (forall j :: 0 <= j < |gs| ==> gs[j] != [] && rr.result.value[j] == Meta(cfg, j, gs[j]))
      && (forall j :: 0 <= j < |gs| ==> gs[j] != [] && rr.state.closed[j] == ClosedView(cfg, j, gs[j]))
  {
    var gs := Chunking(cfg, frames);
    RunCorresponds(cfg, FreshRecorder, [], [], frames, 0);
  }

  // ---------------------------------------------------------------------------
  // Consequences: nothing lost, nothing duplicated, exact metadata
  // ---------------------------------------------------------------------------

  /** The samples held by a sequence of chunk files, concatenated. */
  function FileSamples(ws: seq<WriterView>): seq<I16> {
    if ws == [] then [] else FileSamples(ws[..|ws| - 1]) + ws[|ws| - 1].samples
  }

  lemma {:induction false} SamplesOfAppend(a: seq<AudioFrame>, b: seq<AudioFrame>)
    ensures SamplesOf(a + b) == SamplesOf(a) + SamplesOf(b)
    decreases |b|
  {
    if b != [] {
      var b' := b[..|b| - 1];
      assert (a + b)[..|a + b| - 1] == a + b';
      SamplesOfAppend(a, b');
    } else {
      assert a + b == a;
    }
  }

  lemma {:induction false} TotalSamplesLength(frames: seq<AudioFrame>)
    ensures TotalSamples(frames) == |SamplesOf(frames)|
  {
    if frames != [] {
      TotalSamplesLength(frames[..|frames| - 1]);
    }
  }

  /** Files holding the groups' samples hold the samples of the whole stream,
      and their metadata counts add up to its length. */
  lemma {:induction false} FilesHoldFlatten(gs: seq<seq<AudioFrame>>, ws: seq<WriterView>, ms: seq<ChunkMetadata>)
    requires |ws| == |gs| == |ms|
    requires forall j :: 0 <= j < |gs| ==> ws[j].samples == SamplesOf(gs[j])
    requires forall j :: 0 <= j < |gs| ==> ms[j].sampleCount == |SamplesOf(gs[j])|
    ensures FileSamples(ws) == SamplesOf(Flatten(gs))
    ensures SumCounts(ms) == |FileSamples(ws)|
  {
    if gs != [] {
      var n := |gs| - 1;
      FilesHoldFlatten(gs[..n], ws[..n], ms[..n]);
      SamplesOfAppend(Flatten(gs[..n]), gs[n]);
    }
  }

  /** Every input sample is in exactly one chunk file, in arrival order; the
      reported sample counts add up to the number of input samples; every
      chunk file is finalized. */
  lemma RecordKeepsEverySample(cfg: ChunkConfig, frames: seq<AudioFrame>)
    ensures var rr := RecordSpec(cfg, FreshRecorder, frames, NoFaults);
      && rr.result.Success?
      && FileSamples(rr.state.closed) == SamplesOf(frames)
      && SumCounts(rr.result.value) == TotalSamples(frames)
      && forall j :: 0 <= j < |rr.state.closed| ==> rr.state.closed[j].finalized
  {
    var rr := RecordSpec(cfg, FreshRecorder, frames, NoFaults);
    var gs := Chunking(cfg, frames);
    RecordWithoutFaults(cfg, frames);
    ChunkingPartitions(cfg, frames);
    FilesHoldFlatten(gs, rr.state.closed, rr.result.value);
    TotalSamplesLength(frames);
  }

  /** An empty stream yields no chunk and leaves a recorder without an open
      chunk unchanged, whatever the faults. */
  lemma RecordEmptyInput(cfg: ChunkConfig, st: RecState, faults: IoFaults)
    requires st.open.None?
    ensures RecordSpec(cfg, st, [], faults) == RecordResult(st, Success([]))
  {
    var run := Run(cfg, st, [], [], 0, faults);
    assert run == StepResult(st, [], None);
    var c := CloseOpen(run.state, faults);
    assert c == StepResult(st, [], None);
    assert run.emitted + c.emitted == [];
  }

  lemma FlattenFirst<T>(gs: seq<seq<T>>)
    requires gs != [] && gs[0] != []
    ensures Flatten(gs) != [] && Flatten(gs)[0] == gs[0][0]
    decreases |gs|
  {
    if |gs| > 1 {
      FlattenFirst(gs[..|gs| - 1]);
    }
  }

  /** The first chunk is chunk 0 and starts at the first frame. */
  lemma RecordFirst(cfg: ChunkConfig, frames: seq<AudioFrame>)
    requires frames != []
    ensures var rr := RecordSpec(cfg, FreshRecorder, frames, NoFaults);
      && rr.result.Success? && |rr.result.value| > 0
      && rr.result.value[0].chunkIndex == 0
      && rr.result.value[0].filePath == ChunkPath(cfg, 0)
      && rr.result.value[0].startMs == frames[0].timestampMs
      && rr.result.value[0].sampleRate == frames[0].sampleRate
      && rr.result.value[0].channels == frames[0].channels
  {
    RecordWithoutFaults(cfg, frames);
    ChunkingPartitions(cfg, frames);
    FlattenFirst(Chunking(cfg, frames));
  }

  /** The last chunk ends at the last frame. */
  lemma RecordLast(cfg: ChunkConfig, frames: seq<AudioFrame>)
    requires frames != []
    ensures var rr := RecordSpec(cfg, FreshRecorder, frames, NoFaults);
      && rr.result.Success? && |rr.result.value| > 0
      && rr.result.value[|rr.result.value| - 1].endMs == frames[|frames| - 1].timestampMs
  {
    var gs := Chunking(cfg, frames);
    RecordWithoutFaults(cfg, frames);
    ChunkingPartitions(cfg, frames);
    assert gs != [];
    var n := |gs| - 1;
    assert gs[n] != [];
    FlattenLast(gs);
  }

  /** The last element of a concatenation of groups is that of its last
      group, when that group is not empty. */
  lemma FlattenLast<T>(gs: seq<seq<T>>)
    requires gs != [] && gs[|gs| - 1] != []
    ensures var f := Flatten(gs); var g := gs[|gs| - 1];
      f != [] && f[|f| - 1] == g[|g| - 1]
  {
  }

  // ---------------------------------------------------------------------------
  // File names
  // ---------------------------------------------------------------------------

  function Zeros(k: nat): string {
    seq(k, _ => '0')
  }

  lemma {:induction false} ParseDecimalOfDecimal(n: nat)
    ensures ParseDecimal(Decimal(n)) == n
    ensures forall i :: 0 <= i < |Decimal(n)| ==> '0' <= Decimal(n)[i] <= '9'
    decreases n
  {
    if n >= 10 {
      var d := Decimal(n);
      ParseDecimalOfDecimal(n / 10);
      assert d[..|d| - 1] == Decimal(n / 10);
    }
  }

  lemma {:induction false} ParseZeros(k: nat)
    ensures ParseDecimal(Zeros(k)) == 0
  {
    if k > 0 {
      assert Zeros(k)[..k - 1] == Zeros(k - 1);
      ParseZeros(k - 1);
    }
  }

  lemma {:induction false} ParseLeadingZeros(k: nat, d: string)
    ensures ParseDecimal(Zeros(k) + d) == ParseDecimal(d)
    decreases |d|
  {
    if d == [] {
      assert Zeros(k) + d == Zeros(k);
      ParseZeros(k);
    } else {
      var s := Zeros(k) + d;
      assert s[..|s| - 1] == Zeros(k) + d[..|d| - 1];
      ParseLeadingZeros(k, d[..|d| - 1]);
    }
  }

  /** `{:03}` is read back as the number it renders, so distinct chunk
      indices get distinct names. */
  lemma Pad3RoundTrip(n: nat)
    ensures ParseDecimal(Pad3(n)) == n
    ensures |Pad3(n)| >= 3
  {
    ParseDecimalOfDecimal(n);
    var d := Decimal(n);
    if |d| < 3 {
      assert Pad3(n) == Zeros(3 - |d|) + d;
      ParseLeadingZeros(3 - |d|, d);
    }
  }

  lemma DecimalShort(n: nat)
    requires n < 1000
    ensures |Decimal(n)| <= 3
  {
    if n >= 10 {
      assert Decimal(n) == Decimal(n / 10) + [DigitChar(n % 10)];
      if n / 10 >= 10 {
        assert Decimal(n / 10) == Decimal(n / 100) + [DigitChar(n / 10 % 10)];
      }
    }
  }

  /** Indices below 1000 are written with exactly three digits. */
  lemma Pad3Width(n: nat)
    requires n < 1000
    ensures |Pad3(n)| == 3
  {
    DecimalShort(n);
  }

  lemma Pad3Examples()
    ensures Pad3(0) == "000" && Pad3(7) == "007" && Pad3(42) == "042" && Pad3(1234) == "1234"
    ensures Pad3(3) == "003" && Pad3(12) == "012"
  {
    assert Decimal(3) == "3";
    assert Decimal(0) == "0";
    assert Decimal(7) == "7";
    assert Decimal(4) == "4";
    assert Decimal(42) == "42";
    assert Decimal(1) == "1";
    assert Decimal(12) == "12";
    assert Decimal(123) == "123";
    assert Decimal(1234) == "1234";
  }

  /** Distinct chunk indices name distinct files. */
  lemma ChunkPathInjective(cfg: ChunkConfig, i: nat, j: nat)
    requires ChunkPath(cfg, i) == ChunkPath(cfg, j)
    ensures i == j
  {
    var a := ChunkFileName(cfg, i);
    var b := ChunkFileName(cfg, j);
    var pre := cfg.meetingId + "-chunk-";
    assert a == pre + Pad3(i) + ".wav" && b == pre + Pad3(j) + ".wav";
    assert a[0] == b[0] by {
      if cfg.meetingId != [] {
        assert a[0] == cfg.meetingId[0] && b[0] == cfg.meetingId[0];
      } else {
        assert a[0] == '-' && b[0] == '-';
      }
    }
    var dir := cfg.outputDir;
    assert a == b by {
      if a[0] == '/' {
      } else if dir == [] || dir[|dir| - 1] == '/' {
        assert dir + a == dir + b;
        assert a == (dir + a)[|dir|..];
        assert b == (dir + b)[|dir|..];
      } else {
        assert dir + "/" + a == dir + "/" + b;
        assert a == (dir + "/" + a)[|dir| + 1..];
        assert b == (dir + "/" + b)[|dir| + 1..];
      }
    }
    assert Pad3(i) == a[|pre|..|a| - 4];
    assert Pad3(j) == b[|pre|..|b| - 4];
    Pad3RoundTrip(i);
    Pad3RoundTrip(j);
  }

  lemma FileNameExample()
    ensures ChunkFileName(ChunkConfig(10, "/tmp/test", "test-meeting"), 0) == "test-meeting-chunk-000.wav"
  {
    Pad3Examples();
  }

  /** The first chunk of meeting "test-meeting" in "/tmp/test". */
  lemma ChunkPathExample()
    ensures ChunkPath(ChunkConfig(10, "/tmp/test", "test-meeting"), 0) == "/tmp/test/test-meeting-chunk-000.wav"
  {
    FileNameExample();
    assert "/tmp/test"[8] == 't';
  }

  lemma SeparatorFileNames()
    ensures ChunkFileName(ChunkConfig(10, "out/", "m"), 12) == "m-chunk-012.wav"
    ensures ChunkFileName(ChunkConfig(10, "", "m"), 3) == "m-chunk-003.wav"
  {
    Pad3Examples();
  }

  /** A directory that already ends with '/' gets no second separator; an
      empty directory adds none. */
  lemma ChunkPathSeparatorExamples()
    ensures ChunkPath(ChunkConfig(10, "out/", "m"), 12) == "out/m-chunk-012.wav"
    ensures ChunkPath(ChunkConfig(10, "", "m"), 3) == "m-chunk-003.wav"
  {
    SeparatorFileNames();
    assert "out/"[3] == '/';
  }

  // ---------------------------------------------------------------------------
  // The rotation rule determines the chunking
  // ---------------------------------------------------------------------------

  lemma {:induction false} FlattenCons<T>(gs: seq<seq<T>>)
    requires gs != []
    ensures Flatten(gs) == gs[0] + Flatten(gs[1..])
    decreases |gs|
  {
    if |gs| == 1 {
      assert gs[1..] == [];
    } else {
      var n := |gs| - 1;
      var front := gs[..n];
      var tail := gs[1..];
      assert front[0] == gs[0];
      assert front[1..] == tail[..n - 1];
      assert tail[n - 1] == gs[n];
      calc {
        Flatten(gs);
        Flatten(front) + gs[n];
        { FlattenCons(front); }
        gs[0] + Flatten(tail[..n - 1]) + gs[n];
        gs[0] + (Flatten(tail[..n - 1]) + tail[n - 1]);
        gs[0] + Flatten(tail);
      }
    }
  }

  /** The position of the first frame after the first one that lies at least a
      chunk duration after it, searching from `k`; `|fs|` when there is none. */
  function BreakFrom(cfg: ChunkConfig, fs: seq<AudioFrame>, k: nat): nat
    requires fs != []
    decreases |fs| - k
  {
    if k >= |fs| then |fs|
    else if fs[k].timestampMs >= fs[0].timestampMs + DurationMs(cfg) then k
    else BreakFrom(cfg, fs, k + 1)
  }

  lemma WellChunkedTail(cfg: ChunkConfig, gs: seq<seq<AudioFrame>>)
    requires WellChunked(cfg, gs) && gs != []
    ensures WellChunked(cfg, gs[1..])
  {
    assert forall j :: 0 <= j < |gs| - 1 ==> gs[1..][j] == gs[j + 1];
  }

  lemma {:induction false} FirstGroupEndsAtBreak(cfg: ChunkConfig, gs: seq<seq<AudioFrame>>, k: nat)
    requires WellChunked(cfg, gs) && gs != [] && 1 <= k <= |gs[0]|
    ensures Flatten(gs) != [] && BreakFrom(cfg, Flatten(gs), k) == |gs[0]|
    decreases |gs[0]| - k
  {
    var fs := Flatten(gs);
    FlattenCons(gs);
    assert fs[0] == gs[0][0];
    if k < |gs[0]| {
      assert fs[k] == gs[0][k];
      FirstGroupEndsAtBreak(cfg, gs, k + 1);
    } else if k < |fs| {
      var rest := gs[1..];
      assert rest != [];
      FlattenCons(rest);
      assert fs[k] == rest[0][0] == gs[1][0];
    }
  }

  /** Two chunkings of the same stream that both obey the rotation rule are
      the same: the rule leaves no choice. */
  lemma {:induction false} ChunkingUnique(cfg: ChunkConfig, gs1: seq<seq<AudioFrame>>, gs2: seq<seq<AudioFrame>>)
    requires WellChunked(cfg, gs1) && WellChunked(cfg, gs2) && Flatten(gs1) == Flatten(gs2)
    ensures gs1 == gs2
    decreases |gs1|
  {
    if gs1 != [] {
      FlattenCons(gs1);
    }
    if gs2 != [] {
      FlattenCons(gs2);
    }
    if gs1 != [] && gs2 != [] {
      FirstGroupEndsAtBreak(cfg, gs1, 1);
      FirstGroupEndsAtBreak(cfg, gs2, 1);
      var n := |gs1[0]|;
      assert gs1[0] == Flatten(gs1)[..n] == gs2[0];
      assert Flatten(gs1[1..]) == Flatten(gs1)[n..] == Flatten(gs2[1..]);
      WellChunkedTail(cfg, gs1);
      WellChunkedTail(cfg, gs2);
      ChunkingUnique(cfg, gs1[1..], gs2[1..]);
      assert gs1 == [gs1[0]] + gs1[1..];
      assert gs2 == [gs2[0]] + gs2[1..];
    }
  }

  /** A chunking that obeys the rotation rule and holds the stream is the one
      `record` produces. */
  lemma ChunkingCharacterized(cfg: ChunkConfig, frames: seq<AudioFrame>, gs: seq<seq<AudioFrame>>)
    requires WellChunked(cfg, gs) && Flatten(gs) == frames
    ensures Chunking(cfg, frames) == gs
  {
    ChunkingPartitions(cfg, frames);
    ChunkingUnique(cfg, Chunking(cfg, frames), gs);
  }

  predicate OnGrid(frames: seq<AudioFrame>) {
    |frames| == 50 && forall i :: 0 <= i < 50 ==> frames[i].timestampMs == 100 * i
  }

  function GridGroups(frames: seq<AudioFrame>): seq<seq<AudioFrame>>
    requires |frames| == 50
  {
    [frames[..20], frames[20..40], frames[40..]]
  }

  lemma GridWellChunked(cfg: ChunkConfig, frames: seq<AudioFrame>)
    requires cfg.chunkDurationSecs == 2 && OnGrid(frames)
    ensures WellChunked(cfg, GridGroups(frames))
  {
    var gs := GridGroups(frames);
    assert forall k :: 0 <= k < 20 ==> gs[0][k] == frames[k];
    assert forall k :: 0 <= k < 20 ==> gs[1][k] == frames[20 + k];
    assert forall k :: 0 <= k < 10 ==> gs[2][k] == frames[40 + k];
  }

  lemma GridFlatten(frames: seq<AudioFrame>)
    requires |frames| == 50
    ensures Flatten(GridGroups(frames)) == frames
  {
    var gs := GridGroups(frames);
    FlattenSnoc([], gs[0]);
    FlattenSnoc([gs[0]], gs[1]);
    FlattenSnoc([gs[0], gs[1]], gs[2]);
    assert [gs[0], gs[1]] + [gs[2]] == gs;
    assert gs[0] + gs[1] + gs[2] == frames;
  }

  /** Fifty frames 100 ms apart with 2 s chunks: three chunks, 0-1900,
      2000-3900 and 4000-4900, the last one shorter and still finished. */
  lemma RecordGridExample(cfg: ChunkConfig, frames: seq<AudioFrame>)
    requires cfg.chunkDurationSecs == 2 && OnGrid(frames)
    ensures var rr := RecordSpec(cfg, FreshRecorder, frames, NoFaults);
      && rr.result.Success? && |rr.result.value| == 3
      && rr.result.value[0].chunkIndex == 0 && rr.result.value[0].startMs == 0 && rr.result.value[0].endMs == 1900
      && rr.result.value[1].chunkIndex == 1 && rr.result.value[1].startMs == 2000 && rr.result.value[1].endMs == 3900
      && rr.result.value[2].chunkIndex == 2 && rr.result.value[2].startMs == 4000 && rr.result.value[2].endMs == 4900
  {
    var gs := GridGroups(frames);
    GridWellChunked(cfg, frames);
    GridFlatten(frames);
    ChunkingCharacterized(cfg, frames, gs);
    RecordWithoutFaults(cfg, frames);
    assert gs[0][0] == frames[0] && gs[0][19] == frames[19];
    assert gs[1][0] == frames[20] && gs[1][19] == frames[39];
    assert gs[2][0] == frames[40] && gs[2][9] == frames[49];
  }

  // ---------------------------------------------------------------------------
  // Faults abort the recording
  // ---------------------------------------------------------------------------

  /** The errors `record` can return: a create, write or finalize error. */
  ghost predicate IsIoError(cfg: ChunkConfig, e: string) {
    e == WriteError || e == FinalizeError || exists k: nat :: e == CreateError(ChunkPath(cfg, k))
  }

  lemma StepErrorIsIo(cfg: ChunkConfig, st: RecState, f: AudioFrame, pos: nat, faults: IoFaults)
    ensures var s := Step(cfg, st, f, pos, faults);
      s.error.Some? ==> IsIoError(cfg, s.error.value)
  {
    var st0 := if st.meetingStartMs == 0 then st.(meetingStartMs := f.timestampMs) else st;
    var c := CloseOpen(st0, faults);
    if ShouldRotate(cfg, st0.open, f) && c.error.None? {
      var o := OpenNew(cfg, c.state, f, faults);
      if o.error.Some? {
        assert o.error.value == CreateError(ChunkPath(cfg, c.state.chunkIndex));
      }
    }
  }

  lemma {:induction false} RunErrorIsIo(cfg: ChunkConfig, st: RecState, acc: seq<ChunkMetadata>,
                                        frames: seq<AudioFrame>, pos: nat, faults: IoFaults)
    ensures var r := Run(cfg, st, acc, frames, pos, faults);
      r.error.Some? ==> IsIoError(cfg, r.error.value)
    decreases |frames|
  {
    if frames != [] {
      var s := Step(cfg, st, frames[0], pos, faults);
      StepErrorIsIo(cfg, st, frames[0], pos, faults);
      if s.error.None? {
        RunErrorIsIo(cfg, s.state, acc + s.emitted, frames[1..], pos + 1, faults);
      }
    }
  }

  /** Whatever fails, `record` fails only with the error of a create, write
      or finalize operation. */
  lemma RecordErrorIsIo(cfg: ChunkConfig, st: RecState, frames: seq<AudioFrame>, faults: IoFaults)
    ensures var rr := RecordSpec(cfg, st, frames, faults);
      rr.result.Failure? ==> IsIoError(cfg, rr.result.error)
  {
    RunErrorIsIo(cfg, st, [], frames, 0, faults);
  }

  /** A file that cannot be created aborts the recording before anything is
      written; no chunk index is used up. */
  lemma CreateFaultAborts(cfg: ChunkConfig, frames: seq<AudioFrame>, faults: IoFaults)
    requires frames != [] && 0 in faults.createFails
    ensures RecordSpec(cfg, FreshRecorder, frames, faults)
         == RecordResult(RecState(None, 0, frames[0].timestampMs, []), Failure(CreateError(ChunkPath(cfg, 0))))
  {
    var s := Step(cfg, FreshRecorder, frames[0], 0, faults);
    assert s.error == Some(CreateError(ChunkPath(cfg, 0)));
    assert Run(cfg, FreshRecorder, [], frames, 0, faults) == StepResult(s.state, [], s.error);
  }

  /** A sample write that fails aborts the recording; the samples written
      before it stay in the still open, unfinalized file and the metadata
      does not count them. */
  lemma WriteFaultAborts(cfg: ChunkConfig, frames: seq<AudioFrame>, faults: IoFaults)
    requires frames != [] && 0 !in faults.createFails
    requires 0 in faults.writeFails && faults.writeFails[0] < |frames[0].samples|
    ensures var f := frames[0];
      RecordSpec(cfg, FreshRecorder, frames, faults)
      == RecordResult(
           RecState(Some(WriterView(ChunkMetadata(0, ChunkPath(cfg, 0), f.timestampMs, f.timestampMs,
                                                  f.sampleRate, f.channels, 0),
                                    f.samples[..faults.writeFails[0]], true, false)),
                    1, f.timestampMs, []),
           Failure(WriteError))
  {
    var f := frames[0];
    var s := Step(cfg, FreshRecorder, f, 0, faults);
    var w := FreshWriter(ChunkPath(cfg, 0), 0, f.timestampMs, f.sampleRate, f.channels);
    assert w.samples + f.samples[..faults.writeFails[0]] == f.samples[..faults.writeFails[0]];
    assert s.error == Some(WriteError);
    assert Run(cfg, FreshRecorder, [], frames, 0, faults) == StepResult(s.state, [], s.error);
  }

  /** A final chunk that cannot be finalized fails the recording; its file
      holds every sample but is not finalized. */
  lemma FinalizeFaultAborts(cfg: ChunkConfig, f: AudioFrame)
    ensures RecordSpec(cfg, FreshRecorder, [f], IoFaults({}, map[], {0}))
         == RecordResult(RecState(None, 1, f.timestampMs, [WriterView(Meta(cfg, 0, [f]), f.samples, false, false)]),
                         Failure(FinalizeError))
  {
    var faults := IoFaults({}, map[], {0});
    var s := Step(cfg, FreshRecorder, f, 0, faults);
    SamplesOfSnoc([], f);
    assert [] + [f] == [f];
    assert [] + f.samples == f.samples;
    assert s.state.open == Some(WriterView(Meta(cfg, 0, [f]), f.samples, true, false));
    assert Run(cfg, FreshRecorder, [], [f], 0, faults) == Run(cfg, s.state, [], [], 1, faults);
  }

  /** `finish` takes the writer, so the `Drop` that follows it finalizes
      nothing and changes nothing. */
  lemma DropAfterFinishIsNoop(w: WriterView, finalizeFails: bool, dropFails: bool)
    ensures var w' := FinishSpec(w, finalizeFails).writer;
      !w'.writerOpen && FinishSpec(w', dropFails).writer == w'
  {
  }

  // ---------------------------------------------------------------------------
  // The meeting start
  // ---------------------------------------------------------------------------

  lemma {:induction false} RunKeepsMeetingStart(cfg: ChunkConfig, st: RecState, acc: seq<ChunkMetadata>,
                                                frames: seq<AudioFrame>, pos: nat, faults: IoFaults)
    requires st.meetingStartMs != 0
    ensures Run(cfg, st, acc, frames, pos, faults).state.meetingStartMs == st.meetingStartMs
    decreases |frames|
  {
    if frames != [] {
      var s := Step(cfg, st, frames[0], pos, faults);
      assert s.state.meetingStartMs == st.meetingStartMs;
      RunKeepsMeetingStart(cfg, s.state, acc + s.emitted, frames[1..], pos + 1, faults);
    }
  }

  /** The meeting start is set from the first frame and then kept (0 stands
      for "unset", so a first frame at 0 ms leaves it to the next frame). */
  lemma RecordMeetingStart(cfg: ChunkConfig, frames: seq<AudioFrame>, faults: IoFaults)
    requires frames != [] && frames[0].timestampMs != 0
    ensures RecordSpec(cfg, FreshRecorder, frames, faults).state.meetingStartMs == frames[0].timestampMs
  {
    var s := Step(cfg, FreshRecorder, frames[0], 0, faults);
    assert s.state.meetingStartMs == frames[0].timestampMs;
    if s.error.None? {
      RunKeepsMeetingStart(cfg, s.state, [] + s.emitted, frames[1..], 1, faults);
      var run := Run(cfg, FreshRecorder, [], frames, 0, faults);
      assert run == Run(cfg, s.state, [] + s.emitted, frames[1..], 1, faults);
      assert CloseOpen(run.state, faults).state.meetingStartMs == run.state.meetingStartMs;
    } else {
      assert Run(cfg, FreshRecorder, [], frames, 0, faults).state == s.state;
    }
  }

  // ---------------------------------------------------------------------------
  // The writer and the recorder as objects
  // ---------------------------------------------------------------------------

  /** `ChunkWriter`: the WAV file of one chunk, reduced to the samples it
      holds, and the chunk's metadata. */
  class ChunkWriter {
    var metadata: ChunkMetadata
    /** The samples written to the WAV file so far. */
    var samples: seq<I16>
    /** Whether the hound writer is still present (`writer.is_some()`). */
    var writerOpen: bool
    var finalized: bool

    ghost function View(): WriterView
      reads this
    {
      WriterView(metadata, samples, writerOpen, finalized)
    }

    constructor (filePath: string, chunkIndex: nat, startMs: nat, sampleRate: nat, channels: nat)
      ensures View() == FreshWriter(filePath, chunkIndex, startMs, sampleRate, channels)
    {
      metadata := ChunkMetadata(chunkIndex, filePath, startMs, startMs, sampleRate, channels, 0);
      samples := [];
      writerOpen := true;
      finalized := false;
    }

    /** `ChunkWriter::new`: create the chunk's WAV file; `createFails` says
        whether the file system refuses. */
    static method Create(filePath: string, chunkIndex: nat, startMs: nat, sampleRate: nat, channels: nat,
                         createFails: bool) returns (r: Result<ChunkWriter>)
      ensures r.Failure? <==> createFails
      ensures r.Failure? ==> r.error == CreateError(filePath)
      ensures r.Success? ==> fresh(r.value) && r.value.View() == FreshWriter(filePath, chunkIndex, startMs, sampleRate, channels)
    {
      if createFails {
        return Failure(CreateError(filePath));
      }
      var w := new ChunkWriter(filePath, chunkIndex, startMs, sampleRate, channels);
      return Success(w);
    }

    /** `write_frame`: write the samples one at a time; `failAt` is the sample
        whose write fails, if any. */
    method WriteFrame(frame: AudioFrame, failAt: Option<nat>) returns (r: Outcome)
      modifies this
      ensures WriteResult(View(), r) == WriteFrameSpec(old(View()), frame, failAt)
    {
      if writerOpen {
        for i := 0 to |frame.samples|
          invariant samples == old(samples) + frame.samples[..i]
          invariant metadata == old(metadata) && writerOpen && finalized == old(finalized)
          invariant failAt.Some? ==> failAt.value >= i
        {
          if failAt == Some(i) {
            return Fail(WriteError);
          }
          assert frame.samples[..i + 1] == frame.samples[..i] + [frame.samples[i]];
          samples := samples + [frame.samples[i]];
        }
        assert frame.samples[..|frame.samples|] == frame.samples;
        metadata := metadata.(endMs := frame.timestampMs, sampleCount := metadata.sampleCount + |frame.samples|);
      }
      return Pass;
    }

    /** `finish`: take the writer, finalize it and hand back the metadata. */
    method Finish(finalizeFails: bool) returns (r: Result<ChunkMetadata>)
      modifies this
      ensures FinishResult(View(), r) == FinishSpec(old(View()), finalizeFails)
    {
      if writerOpen {
        writerOpen := false;
        if finalizeFails {
          return Failure(FinalizeError);
        }
        finalized := true;
      }
      return Success(metadata);
    }

    /** `Drop`: finalize a writer that is still present; a failure is only
        logged. */
    method Drop(finalizeFails: bool)
      modifies this
      ensures View() == FinishSpec(old(View()), finalizeFails).writer
    {
      if writerOpen {
        writerOpen := false;
        if !finalizeFails {
          finalized := true;
        }
      }
    }
  }

  /** `ChunkedRecorder`. */
  class ChunkedRecorder {
    const config: ChunkConfig
    var currentChunk: Option<ChunkWriter>
    var chunkIndex: nat
    var meetingStartMs: nat
    /** The writers already taken out of `current_chunk`: the chunk files on
        disk. */
    ghost var closed: seq<WriterView>

    ghost function Writers(): set<object>
      reads this
    {
      if currentChunk.Some? then {currentChunk.value} else {}
    }

    ghost function State(): RecState
      reads this, Writers()
    {
      RecState(if currentChunk.Some? then Some(currentChunk.value.View()) else None,
               chunkIndex, meetingStartMs, closed)
    }

    constructor (config: ChunkConfig)
      ensures this.config == config && State() == FreshRecorder
    {
      this.config := config;
      currentChunk := None;
      chunkIndex := 0;
      meetingStartMs := 0;
      closed := [];
    }

    /** `ChunkedRecorder::new`: create the output directory, then start with
        no open chunk, index 0 and no meeting start. */
    static method New(config: ChunkConfig, dirFails: bool) returns (r: Result<ChunkedRecorder>)
      ensures r.Failure? <==> dirFails
      ensures r.Failure? ==> r.error == OutputDirError
      ensures r.Success? ==> fresh(r.value) && r.value.config == config && r.value.State() == FreshRecorder
    {
      if dirFails {
        return Failure(OutputDirError);
      }
      var rec := new ChunkedRecorder(config);
      return Success(rec);
    }

    /** `should_start_new_chunk`. */
    function ShouldStartNewChunk(frame: AudioFrame): (b: bool)
      reads this, if currentChunk.Some? then {currentChunk.value} else {}
      requires currentChunk.Some? ==> frame.timestampMs >= currentChunk.value.metadata.startMs
      ensures b == ShouldRotate(config, State().open, frame)
    {
      match currentChunk
      case None => true
      case Some(chunk) =>
        var chunkDurationMs := config.chunkDurationSecs * 1000;
        var elapsedMs := frame.timestampMs - chunk.metadata.startMs;
        elapsedMs >= chunkDurationMs
    }

    /** `start_new_chunk`: create the writer of the next chunk index for a
        chunk starting at `frame`, and advance the index if that succeeded. */
    method StartNewChunk(frame: AudioFrame, createFails: bool) returns (r: Result<ChunkWriter>)
      modifies this
      ensures currentChunk == old(currentChunk) && meetingStartMs == old(meetingStartMs) && closed == old(closed)
      ensures r.Failure? <==> createFails
      ensures r.Failure? ==> r.error == CreateError(ChunkPath(config, old(chunkIndex))) && chunkIndex == old(chunkIndex)
      ensures r.Success? ==>
        && fresh(r.value) && chunkIndex == old(chunkIndex) + 1
        && r.value.View() == FreshWriter(ChunkPath(config, old(chunkIndex)), old(chunkIndex),
                                         frame.timestampMs, frame.sampleRate, frame.channels)
    {
      var chunkPath := JoinPath(config.outputDir, config.meetingId + "-chunk-" + Pad3(chunkIndex) + ".wav");
      r := ChunkWriter.Create(chunkPath, chunkIndex, frame.timestampMs, frame.sampleRate, frame.channels, createFails);
      if r.Success? {
        chunkIndex := chunkIndex + 1;
      }
    }

    /** Take the open chunk, finish it and report its metadata. */
    method FinishCurrent(faults: IoFaults) returns (emitted: seq<ChunkMetadata>, err: Option<string>)
      modifies this, Writers()
      ensures var c := CloseOpen(old(State()), faults);
        State() == c.state && emitted == c.emitted && err == c.error
    {
      emitted := [];
      err := None;
      match currentChunk
      case None =>
      case Some(chunk) =>
        currentChunk := None;
        var res := chunk.Finish(chunk.metadata.chunkIndex in faults.finalizeFails);
        closed := closed + [chunk.View()];
        match res
        case Failure(e) => err := Some(e);
        case Success(m) => emitted := [m];
    }

    /** Write the frame to the open chunk, if there is one. */
    method WriteCurrent(frame: AudioFrame, failAt: Option<nat>) returns (err: Option<string>)
      modifies Writers()
      ensures var w := WriteOpen(old(State()), frame, failAt);
        State() == w.state && err == w.error
    {
      match currentChunk
      case None =>
        err := None;
      case Some(chunk) =>
        var o := chunk.WriteFrame(frame, failAt);
        err := if o.Fail? then Some(o.error) else None;
    }

    /** One iteration of the receive loop of `record`, for the frame at input
        position `pos`. */
    method RecordFrame(frame: AudioFrame, pos: nat, faults: IoFaults) returns (emitted: seq<ChunkMetadata>, err: Option<string>)
      requires currentChunk.Some? ==> frame.timestampMs >= currentChunk.value.metadata.startMs
      modifies this, Writers()
      ensures var s := Step(config, old(State()), frame, pos, faults);
        State() == s.state && emitted == s.emitted && err == s.error
      ensures currentChunk.Some? ==>
        && (currentChunk.value in old(Writers()) || fresh(currentChunk.value))
        && currentChunk.value.metadata.startMs <= frame.timestampMs
    {
      if meetingStartMs == 0 {
        meetingStartMs := frame.timestampMs;
      }
      if ShouldStartNewChunk(frame) {
        emitted, err := RotateChunk(frame, pos, faults);
      } else {
        emitted := [];
        err := WriteCurrent(frame, WriteFault(faults, pos));
      }
    }

    /** The rotation branch of `record`'s loop: finish the open chunk, start
        a new one at `frame` and write the frame to it. */
    method RotateChunk(frame: AudioFrame, pos: nat, faults: IoFaults) returns (emitted: seq<ChunkMetadata>, err: Option<string>)
      modifies this, Writers()
      ensures var r := Rotate(config, old(State()), frame, pos, faults);
        State() == r.state && emitted == r.emitted && err == r.error
      ensures currentChunk.Some? ==>
        fresh(currentChunk.value) && currentChunk.value.metadata.startMs <= frame.timestampMs
    {
      emitted, err := FinishCurrent(faults);
      if err.Some? {
        return;
      }
      var chunk := StartNewChunk(frame, chunkIndex in faults.createFails);
      if chunk.Failure? {
        err := Some(chunk.error);
        return;
      }
      currentChunk := Some(chunk.value);
      err := WriteCurrent(frame, WriteFault(faults, pos));
    }

    /** `record`: receive the frames, rotating chunks by duration, then finish
        the last chunk; an error aborts the recording. */
    method Record(frames: seq<AudioFrame>, faults: IoFaults) returns (r: Result<seq<ChunkMetadata>>)
      requires Sorted(frames)
      requires currentChunk.Some? && frames != [] ==> frames[0].timestampMs >= currentChunk.value.metadata.startMs
      modifies this, Writers()
      ensures var rr := RecordSpec(config, old(State()), frames, faults);
        r == rr.result && State() == rr.state
    {
      var metadata: seq<ChunkMetadata> := [];
      ghost var st0 := State();
      var i := 0;
      while i < |frames|
        invariant 0 <= i <= |frames|
        invariant currentChunk.Some? ==> currentChunk.value in old(Writers()) || fresh(currentChunk.value)
        invariant currentChunk.Some? && i < |frames| ==> frames[i].timestampMs >= currentChunk.value.metadata.startMs
        invariant Run(config, State(), metadata, frames[i..], i, faults) == Run(config, st0, [], frames, 0, faults)
      {
        var frame := frames[i];
        assert frames[i..][0] == frame && frames[i..][1..] == frames[i + 1..];
        var emitted, err := RecordFrame(frame, i, faults);
        metadata := metadata + emitted;
        if err.Some? {
          return Failure(err.value);
        }
        i := i + 1;
      }
      var emitted, err := FinishCurrent(faults);
      if err.Some? {
        return Failure(err.value);
      }
      r := Success(metadata + emitted);
    }
  }
}
