/** The stream mixer of src/audio/mixer.rs: one FIFO of frames per enabled
    source, a playback cursor, rejection of foreign frames, pruning of stale
    frames, and mixing of at most one frame per source per step. */
module Mixer {
  import opened Wrappers
  import opened Audio

  /** Target format, staleness bound and the set of sources to mix. */
  datatype MixerConfig = MixerConfig(
    sampleRate: nat,
    channels: nat,
    maxBufferDelayMs: nat,
    enabledSources: set<Source>)

  /** `MixerConfig::default`. */
  function DefaultConfig(): MixerConfig {
    MixerConfig(16000, 1, 200, {System, Microphone})
  }

  lemma DefaultConfigShape()
    ensures DefaultConfig().sampleRate == 16000 && DefaultConfig().channels == 1
    ensures DefaultConfig().maxBufferDelayMs == 200
    ensures |DefaultConfig().enabledSources| == 2
    ensures System in DefaultConfig().enabledSources && Microphone in DefaultConfig().enabledSources
  {
    assert DefaultConfig().enabledSources == {System} + {Microphone};
  }

  type Buffers = map<Source, seq<AudioFrame>>

  /** `order` lists every key of `keys` exactly once: a model of the
      (unspecified but fixed) iteration order of the source's `HashMap`. */
  ghost predicate IsEnumeration(order: seq<Source>, keys: set<Source>) {
    && (forall s :: s in order <==> s in keys)
    && (forall i, j :: 0 <= i < j < |order| ==> order[i] != order[j])
  }

  ghost predicate AllEmpty(b: Buffers) {
    forall s :: s in b ==> b[s] == []
  }

  // ---------------------------------------------------------------------------
  // Admission and staleness
  // ---------------------------------------------------------------------------

  /** A frame is buffered only when its source is enabled and its format
      matches the configuration (the three early returns of `buffer_frame`). */
  predicate Accepts(cfg: MixerConfig, f: AudioFrame) {
    && f.source in cfg.enabledSources
    && f.sampleRate == cfg.sampleRate
    && f.channels == cfg.channels
  }

  /** `current_position_ms.saturating_sub(max_buffer_delay_ms)`. */
  function Cutoff(positionMs: nat, maxDelayMs: nat): nat
  {
    if positionMs >= maxDelayMs then positionMs - maxDelayMs else 0
  }

  /** The buffer left once every stale frame at its front is popped. By
      DropStaleSpec the result is a suffix of `q`, everything removed is older
      than the cutoff, and the new front (if any) is not. */
  function DropStale(q: seq<AudioFrame>, cutoff: nat): seq<AudioFrame> {
    if q != [] && q[0].timestampMs < cutoff then DropStale(q[1..], cutoff) else q
  }

  lemma {:induction false} DropStaleSpec(q: seq<AudioFrame>, cutoff: nat)
    ensures var r := DropStale(q, cutoff);
      && |r| <= |q| && r == q[|q| - |r|..]
      && (forall i :: 0 <= i < |q| - |r| ==> q[i].timestampMs < cutoff)
      && (r == [] || r[0].timestampMs >= cutoff)
  {
    if q != [] && q[0].timestampMs < cutoff {
      DropStaleSpec(q[1..], cutoff);
    }
  }

  function CleanedBuffers(b: Buffers, cutoff: nat): Buffers {
    map s | s in b :: DropStale(b[s], cutoff)
  }

  /** The inner loop of `cleanup_old_frames` on one buffer: pop the front
      while it is older than the cutoff. */
  method PopStale(buffer: seq<AudioFrame>, cutoff: nat) returns (r: seq<AudioFrame>)
    ensures r == DropStale(buffer, cutoff)
    ensures |r| <= |buffer| && r == buffer[|buffer| - |r|..]
    ensures r == [] || r[0].timestampMs >= cutoff
    ensures forall i :: 0 <= i < |buffer| - |r| ==> buffer[i].timestampMs < cutoff
  {
    r := buffer;
    while r != [] && r[0].timestampMs < cutoff
      invariant DropStale(r, cutoff) == DropStale(buffer, cutoff)
      invariant |r| <= |buffer| && r == buffer[|buffer| - |r|..]
      invariant forall i :: 0 <= i < |buffer| - |r| ==> buffer[i].timestampMs < cutoff
    {
      r := r[1..];
    }
  }

  /** The buffers after the cleanup loop has visited the sources in `done`. */
  function CleanedFor(b: Buffers, done: seq<Source>, cutoff: nat): Buffers {
    map s | s in b :: if s in done then DropStale(b[s], cutoff) else b[s]
  }

  /** One iteration of the cleanup loop cleans the next source's buffer. */
  lemma CleanedForStep(b: Buffers, order: seq<Source>, k: nat, cutoff: nat)
    requires k < |order| && order[k] in b
    requires forall i, j :: 0 <= i < j < |order| ==> order[i] != order[j]
    ensures var c := CleanedFor(b, order[..k], cutoff);
      c[order[k] := DropStale(c[order[k]], cutoff)] == CleanedFor(b, order[..k + 1], cutoff)
  {
    NotInPrefix(order, k);
  }

  /** Visiting every source cleans every buffer. */
  lemma CleanedForAll(b: Buffers, order: seq<Source>, cutoff: nat)
    requires IsEnumeration(order, b.Keys)
    ensures CleanedFor(b, order, cutoff) == CleanedBuffers(b, cutoff)
  {
  }

  // ---------------------------------------------------------------------------
  // Popping one frame per source
  // ---------------------------------------------------------------------------

  /** The front frames of the non-empty buffers, visited in `order`. */
  function Fronts(b: Buffers, order: seq<Source>): seq<AudioFrame> {
    if order == [] then []
    else
      var s := order[|order| - 1];
      Fronts(b, order[..|order| - 1]) + (if s in b && b[s] != [] then [b[s][0]] else [])
  }

  /** Every non-empty buffer without its front frame. */
  function Popped(b: Buffers): Buffers {
    map s | s in b :: if b[s] == [] then [] else b[s][1..]
  }

  /** The buffers after the pop loop has visited the sources in `done`. */
  function PoppedFor(b: Buffers, done: seq<Source>): Buffers {
    map s | s in b :: if s in done && b[s] != [] then b[s][1..] else b[s]
  }

  /** One iteration of the pop loop pops the next source's buffer. */
  lemma PoppedForStep(b: Buffers, order: seq<Source>, k: nat)
    requires k < |order| && order[k] in b
    requires forall i, j :: 0 <= i < j < |order| ==> order[i] != order[j]
    ensures var p := PoppedFor(b, order[..k]);
      && p[order[k]] == b[order[k]]
      && (if p[order[k]] == [] then p else p[order[k] := p[order[k]][1..]]) == PoppedFor(b, order[..k + 1])
  {
    NotInPrefix(order, k);
  }

  /** Visiting every source pops every buffer. */
  lemma PoppedForAll(b: Buffers, order: seq<Source>)
    requires IsEnumeration(order, b.Keys)
    ensures PoppedFor(b, order) == Popped(b)
  {
  }

  /** A source of a duplicate-free order is not among the ones before it. */
  lemma NotInPrefix(order: seq<Source>, k: nat)
    requires k < |order|
    requires forall i, j :: 0 <= i < j < |order| ==> order[i] != order[j]
    ensures order[k] !in order[..k]
    ensures order[..k + 1] == order[..k] + [order[k]]
  {
    forall i | 0 <= i < k
      ensures order[..k][i] != order[k]
    {
      assert order[..k][i] == order[i];
    }
  }

  /** Frames held in the buffers named by `order`. */
  function Total(b: Buffers, order: seq<Source>): nat {
    if order == [] then 0
    else
      var s := order[|order| - 1];
      Total(b, order[..|order| - 1]) + (if s in b then |b[s]| else 0)
  }

  /** What `mix_next_chunk` emits for buffers `b`: nothing, the lone front
      frame unchanged, or the mix of all front frames. */
  function NextChunk(cfg: MixerConfig, b: Buffers, order: seq<Source>): Option<AudioFrame> {
    var fronts := Fronts(b, order);
    if fronts == [] then None
    else if |fronts| == 1 then Some(fronts[0])
    else Some(MixFrames(cfg, fronts))
  }

  lemma {:induction false} FrontsEmptyIff(b: Buffers, order: seq<Source>)
    ensures Fronts(b, order) == [] <==> forall s :: s in order && s in b ==> b[s] == []
  {
    if order != [] {
      var init := order[..|order| - 1];
      FrontsEmptyIff(b, init);
      assert forall s :: s in order <==> s in init || s == order[|order| - 1];
    }
  }

  lemma {:induction false} FrontsCount(b: Buffers, order: seq<Source>)
    ensures |Fronts(b, order)| <= |order|
    ensures forall f :: f in Fronts(b, order) ==> exists s :: s in order && s in b && b[s] != [] && f == b[s][0]
  {
    if order != [] {
      var init := order[..|order| - 1];
      FrontsCount(b, init);
      forall f | f in Fronts(b, order)
        ensures exists s :: s in order && s in b && b[s] != [] && f == b[s][0]
      {
        if f in Fronts(b, init) {
          var s :| s in init && s in b && b[s] != [] && f == b[s][0];
          assert s in order;
        } else {
          assert order[|order| - 1] in order;
        }
      }
    }
  }

  /** `mix_next_chunk` returns None exactly when every buffer is empty. */
  lemma NextChunkNoneIff(cfg: MixerConfig, b: Buffers, order: seq<Source>)
    requires IsEnumeration(order, b.Keys)
    ensures NextChunk(cfg, b, order) == None <==> AllEmpty(b)
  {
    FrontsEmptyIff(b, order);
  }

  /** Extending the visited prefix by one source appends that source's front. */
  lemma FrontsStep(b: Buffers, order: seq<Source>, k: nat)
    requires k < |order|
    ensures Fronts(b, order[..k + 1]) == Fronts(b, order[..k]) +
      (if order[k] in b && b[order[k]] != [] then [b[order[k]][0]] else [])
  {
    assert order[..k + 1][..k] == order[..k];
  }

  /** Popping the fronts removes exactly one frame per non-empty buffer. */
  lemma {:induction false} TotalPopped(b: Buffers, order: seq<Source>)
    ensures Total(Popped(b), order) + |Fronts(b, order)| == Total(b, order)
  {
    if order != [] {
      TotalPopped(b, order[..|order| - 1]);
    }
  }

  lemma {:induction false} TotalZeroIff(b: Buffers, order: seq<Source>)
    ensures Total(b, order) == 0 <==> forall s :: s in order && s in b ==> b[s] == []
  {
    if order != [] {
      var init := order[..|order| - 1];
      TotalZeroIff(b, init);
      assert forall s :: s in order <==> s in init || s == order[|order| - 1];
    }
  }

  /** When only buffer `s` can be non-empty, the fronts are its front alone. */
  lemma {:induction false} FrontsSingle(b: Buffers, order: seq<Source>, s: Source)
    requires forall i, j :: 0 <= i < j < |order| ==> order[i] != order[j]
    requires forall t :: t in b && t != s ==> b[t] == []
    ensures Fronts(b, order) == if s in order && s in b && b[s] != [] then [b[s][0]] else []
  {
    if order != [] {
      var init := order[..|order| - 1];
      var last := order[|order| - 1];
      FrontsSingle(b, init, s);
      if last == s {
        forall i | 0 <= i < |init| ensures init[i] != s {
          assert order[i] != order[|order| - 1];
        }
      } else {
        assert s in order <==> s in init;
      }
    }
  }

  /** One receive iteration of `mix` on idle buffers: the frame is emitted
      unchanged iff it is accepted and not stale, and the buffers are idle
      again afterwards. */
  lemma IdleStep(cfg: MixerConfig, b: Buffers, order: seq<Source>, f: AudioFrame, pos: nat)
    requires IsEnumeration(order, b.Keys) && AllEmpty(b) && b.Keys == cfg.enabledSources
    ensures
      var b1 := if Accepts(cfg, f)
        then CleanedBuffers(b[f.source := b[f.source] + [f]], Cutoff(pos, cfg.maxBufferDelayMs))
        else b;
      && b1.Keys == b.Keys
      && NextChunk(cfg, b1, order) == (if Emitted(cfg, pos, f) then Some(f) else None)
      && AllEmpty(Popped(b1))
  {
    var cutoff := Cutoff(pos, cfg.maxBufferDelayMs);
    if Accepts(cfg, f) {
      assert b[f.source] + [f] == [f];
      var b0 := b[f.source := [f]];
      var b1 := CleanedBuffers(b0, cutoff);
      assert b1.Keys == b.Keys;
      assert DropStale([f], cutoff) == (if f.timestampMs >= cutoff then [f] else []) by {
        assert [f][1..] == [];
      }
      assert b1[f.source] == DropStale([f], cutoff);
      forall t | t in b1 && t != f.source ensures b1[t] == [] {
        assert b0[t] == [];
      }
      FrontsSingle(b1, order, f.source);
      forall t | t in Popped(b1) ensures Popped(b1)[t] == [] {
        assert [f][1..] == [];
      }
    } else {
      FrontsEmptyIff(b, order);
    }
  }

  // ---------------------------------------------------------------------------
  // Mixing several frames
  // ---------------------------------------------------------------------------

  /** `frames.iter().map(|f| f.timestamp_ms).min()` on a non-empty slice. */
  function EarliestTimestamp(frames: seq<AudioFrame>): nat
    requires frames != []
  {
    var last := frames[|frames| - 1];
    if |frames| == 1 then last.timestampMs
    else
      var m := EarliestTimestamp(frames[..|frames| - 1]);
      if m <= last.timestampMs then m else last.timestampMs
  }

  /** EarliestTimestamp is the minimum timestamp of the frames. */
  lemma {:induction false} EarliestTimestampSpec(frames: seq<AudioFrame>)
    requires frames != []
    ensures forall f :: f in frames ==> EarliestTimestamp(frames) <= f.timestampMs
    ensures exists f :: f in frames && EarliestTimestamp(frames) == f.timestampMs
  {
    var last := frames[|frames| - 1];
    if |frames| > 1 {
      var init := frames[..|frames| - 1];
      EarliestTimestampSpec(init);
      assert forall f :: f in frames ==> f in init || f == last;
      var g :| g in init && EarliestTimestamp(init) == g.timestampMs;
      assert g in frames;
    }
  }

  /** `frames.iter().map(|f| f.samples.len()).max().unwrap_or(0)`. */
  function LongestLength(frames: seq<AudioFrame>): nat {
    if frames == [] then 0
    else
      var last := frames[|frames| - 1];
      var m := LongestLength(frames[..|frames| - 1]);
      if m >= |last.samples| then m else |last.samples|
  }

  /** LongestLength is the maximum sample count of the frames, 0 for none. */
  lemma {:induction false} LongestLengthSpec(frames: seq<AudioFrame>)
    ensures forall f :: f in frames ==> |f.samples| <= LongestLength(frames)
    ensures frames == [] ==> LongestLength(frames) == 0
    ensures frames != [] ==> exists f :: f in frames && LongestLength(frames) == |f.samples|
  {
    if frames != [] {
      var last := frames[|frames| - 1];
      var init := frames[..|frames| - 1];
      LongestLengthSpec(init);
      assert forall f :: f in frames ==> f in init || f == last;
      if init != [] {
        var g :| g in init && LongestLength(init) == |g.samples|;
        assert g in frames;
      }
    }
  }

  /** `frame.samples.get(i).copied().unwrap_or(0)`: missing samples are silence. */
  function SampleAt(f: AudioFrame, i: nat): int {
    if i < |f.samples| then f.samples[i] else 0
  }

  /** The unclamped sum of sample `i` over all frames. */
  function SumAt(frames: seq<AudioFrame>, i: nat): int {
    if frames == [] then 0
    else SumAt(frames[..|frames| - 1], i) + SampleAt(frames[|frames| - 1], i)
  }

  /** The frame `mix_multiple_frames` returns for a non-empty slice. */
  function MixFrames(cfg: MixerConfig, frames: seq<AudioFrame>): AudioFrame
    requires frames != []
  {
    var n := LongestLength(frames);
    AudioFrame(
      seq(n, i requires 0 <= i < n => Clamp16(SumAt(frames, i))),
      cfg.sampleRate, cfg.channels, EarliestTimestamp(frames), System)
  }

  /** The mixed frame starts at the earliest input, is as long as the longest
      input, carries the clamped sample-wise sums, and is tagged as the
      configured format from `System`. */
  lemma MixFramesShape(cfg: MixerConfig, frames: seq<AudioFrame>)
    requires frames != []
    ensures var m := MixFrames(cfg, frames);
      && (forall f :: f in frames ==> m.timestampMs <= f.timestampMs && |f.samples| <= |m.samples|)
      && (exists f :: f in frames && m.timestampMs == f.timestampMs)
      && (exists f :: f in frames && |m.samples| == |f.samples|)
      && (forall i :: 0 <= i < |m.samples| ==> m.samples[i] == Clamp16(SumAt(frames, i)))
      && m.sampleRate == cfg.sampleRate && m.channels == cfg.channels && m.source == System
  {
    EarliestTimestampSpec(frames);
    LongestLengthSpec(frames);
  }

  lemma {:induction false} SumAtAppend(u: seq<AudioFrame>, v: seq<AudioFrame>, i: nat)
    ensures SumAt(u + v, i) == SumAt(u, i) + SumAt(v, i)
    decreases |v|
  {
    if v == [] {
      assert u + v == u;
    } else {
      var vi := v[..|v| - 1];
      assert (u + v)[..|u + v| - 1] == u + vi;
      SumAtAppend(u, vi, i);
    }
  }

  lemma {:induction false} SumAtPermutation(a: seq<AudioFrame>, b: seq<AudioFrame>, i: nat)
    requires multiset(a) == multiset(b)
    ensures SumAt(a, i) == SumAt(b, i)
    decreases |a|
  {
    if a == [] {
      assert |b| == |multiset(b)| == 0;
    } else {
      var x := a[|a| - 1];
      var ai := a[..|a| - 1];
      assert a == ai + [x];
      assert multiset(ai) == multiset(a) - multiset{x};
      assert x in multiset(b);
      var k :| 0 <= k < |b| && b[k] == x;
      RemoveAt(b, k);
      SumAtPermutation(ai, b[..k] + b[k + 1..], i);
      SumAtRemove(b, k, i);
    }
  }

  /** Taking frame `k` out of `b` takes one copy of it out of the multiset. */
  lemma RemoveAt(b: seq<AudioFrame>, k: nat)
    requires k < |b|
    ensures multiset(b[..k] + b[k + 1..]) == multiset(b) - multiset{b[k]}
  {
    assert b == b[..k] + [b[k]] + b[k + 1..];
    assert multiset(b) == multiset(b[..k]) + multiset{b[k]} + multiset(b[k + 1..]);
  }

  /** Taking frame `k` out of `b` takes its sample out of the sum. */
  lemma SumAtRemove(b: seq<AudioFrame>, k: nat, i: nat)
    requires k < |b|
    ensures SumAt(b, i) == SumAt(b[..k] + b[k + 1..], i) + SampleAt(b[k], i)
  {
    assert b == b[..k] + [b[k]] + b[k + 1..];
    SumAtAppend(b[..k] + [b[k]], b[k + 1..], i);
    SumAtAppend(b[..k], [b[k]], i);
    SumAtAppend(b[..k], b[k + 1..], i);
    assert SumAt([b[k]], i) == SampleAt(b[k], i) by {
      assert [b[k]][..0] == [];
    }
  }

  /** Mixing does not depend on the order in which the buffers are visited. */
  lemma MixFramesOrderIndependent(cfg: MixerConfig, a: seq<AudioFrame>, b: seq<AudioFrame>)
    requires a != [] && multiset(a) == multiset(b)
    ensures b != [] && MixFrames(cfg, a) == MixFrames(cfg, b)
  {
    assert forall f :: f in a <==> f in multiset(a);
    assert forall f :: f in b <==> f in multiset(b);
    assert b != [] by { assert a[0] in multiset(b); }
    EarliestTimestampSpec(a);
    EarliestTimestampSpec(b);
    LongestLengthSpec(a);
    LongestLengthSpec(b);
    var n := LongestLength(a);
    assert n == LongestLength(b) by {
      var fa :| fa in a && n == |fa.samples|;
      var fb :| fb in b && LongestLength(b) == |fb.samples|;
      assert fa in b && fb in a;
    }
    assert EarliestTimestamp(a) == EarliestTimestamp(b) by {
      var fa :| fa in a && EarliestTimestamp(a) == fa.timestampMs;
      var fb :| fb in b && EarliestTimestamp(b) == fb.timestampMs;
      assert fa in b && fb in a;
    }
    forall i | 0 <= i < n ensures SumAt(a, i) == SumAt(b, i) {
      SumAtPermutation(a, b, i);
    }
  }

  lemma SumAtPair(a: AudioFrame, b: AudioFrame, i: nat)
    ensures SumAt([a, b], i) == SampleAt(a, i) + SampleAt(b, i)
  {
    assert [a, b][..1] == [a];
    assert [a][..0] == [];
    assert SumAt([a], i) == SampleAt(a, i);
    assert SumAt([a, b], i) == SumAt([a], i) + SampleAt(b, i);
  }

  /** The three mixing examples of the source's unit tests. */
  lemma MixExamples()
    ensures
      var cfg := DefaultConfig();
      var s := AudioFrame([100, 200, 300], 16000, 1, 0, System);
      var m := AudioFrame([50, 100, 150], 16000, 1, 0, Microphone);
      MixFrames(cfg, [s, m]).samples == [150, 300, 450]
    ensures
      var cfg := DefaultConfig();
      var s := AudioFrame([I16Max - 100], 16000, 1, 0, System);
      var m := AudioFrame([200], 16000, 1, 0, Microphone);
      MixFrames(cfg, [s, m]).samples == [I16Max]
    ensures
      var cfg := DefaultConfig();
      var s := AudioFrame([100, 200], 16000, 1, 0, System);
      var m := AudioFrame([50, 100, 150, 200], 16000, 1, 0, Microphone);
      MixFrames(cfg, [s, m]).samples == [150, 300, 150, 200]
  {
    var cfg := DefaultConfig();
    var s1 := AudioFrame([100, 200, 300], 16000, 1, 0, System);
    var m1 := AudioFrame([50, 100, 150], 16000, 1, 0, Microphone);
    assert [s1, m1][..1] == [s1] && [s1][..0] == [];
    assert LongestLength([s1]) == 3;
    assert LongestLength([s1, m1]) == 3;
    SumAtPair(s1, m1, 0);
    SumAtPair(s1, m1, 1);
    SumAtPair(s1, m1, 2);
    var s2 := AudioFrame([I16Max - 100], 16000, 1, 0, System);
    var m2 := AudioFrame([200], 16000, 1, 0, Microphone);
    assert [s2, m2][..1] == [s2] && [s2][..0] == [];
    assert LongestLength([s2]) == 1;
    assert LongestLength([s2, m2]) == 1;
    SumAtPair(s2, m2, 0);
    var s3 := AudioFrame([100, 200], 16000, 1, 0, System);
    var m3 := AudioFrame([50, 100, 150, 200], 16000, 1, 0, Microphone);
    assert [s3, m3][..1] == [s3] && [s3][..0] == [];
    assert LongestLength([s3]) == 2;
    assert LongestLength([s3, m3]) == 4;
    SumAtPair(s3, m3, 0);
    SumAtPair(s3, m3, 1);
    SumAtPair(s3, m3, 2);
    SumAtPair(s3, m3, 3);
  }

  // ---------------------------------------------------------------------------
  // The whole `mix` run, as a function of its input stream
  // ---------------------------------------------------------------------------

  /** A frame that reaches an empty mixer at cursor `pos` is emitted. */
  predicate Emitted(cfg: MixerConfig, pos: nat, f: AudioFrame) {
    Accepts(cfg, f) && f.timestampMs >= Cutoff(pos, cfg.maxBufferDelayMs)
  }

  /** The frames `mix` returns when it starts from empty buffers at cursor
      `pos`: every emitted frame is passed through unchanged and moves the
      cursor to its own timestamp. */
  function MixOutput(cfg: MixerConfig, pos: nat, input: seq<AudioFrame>): seq<AudioFrame>
    decreases |input|
  {
    if input == [] then []
    else if Emitted(cfg, pos, input[0]) then [input[0]] + MixOutput(cfg, input[0].timestampMs, input[1..])
    else MixOutput(cfg, pos, input[1..])
  }

  /** The cursor after `mix`. */
  function MixPosition(cfg: MixerConfig, pos: nat, input: seq<AudioFrame>): nat
    decreases |input|
  {
    if input == [] then pos
    else if Emitted(cfg, pos, input[0]) then MixPosition(cfg, input[0].timestampMs, input[1..])
    else MixPosition(cfg, pos, input[1..])
  }

  /** The accepted frames of `input`, in arrival order. */
  function AcceptedFrames(cfg: MixerConfig, input: seq<AudioFrame>): seq<AudioFrame> {
    if input == [] then []
    else (if Accepts(cfg, input[0]) then [input[0]] else []) + AcceptedFrames(cfg, input[1..])
  }

  /** `a` is `b` with some elements removed, order kept. */
  predicate IsSubsequence<T(==)>(a: seq<T>, b: seq<T>)
    decreases |b|
  {
    if a == [] then true
    else if b == [] then false
    else if a[0] == b[0] then IsSubsequence(a[1..], b[1..])
    else IsSubsequence(a, b[1..])
  }

  /** The first frame `mix` emits is emitted at the starting cursor. */
  lemma {:induction false} FirstOutputEmitted(cfg: MixerConfig, pos: nat, input: seq<AudioFrame>)
    ensures MixOutput(cfg, pos, input) != [] ==> Emitted(cfg, pos, MixOutput(cfg, pos, input)[0])
    decreases |input|
  {
    if input != [] && !Emitted(cfg, pos, input[0]) {
      FirstOutputEmitted(cfg, pos, input[1..]);
    }
  }

  /** `mix` never alters a frame: its output is an order-preserving selection
      of the accepted input frames. */
  lemma {:induction false} MixOutputIsSelection(cfg: MixerConfig, pos: nat, input: seq<AudioFrame>)
    ensures IsSubsequence(MixOutput(cfg, pos, input), input)
    ensures forall f :: f in MixOutput(cfg, pos, input) ==> f in input && Accepts(cfg, f)
    decreases |input|
  {
    if input != [] {
      var f := input[0];
      if Emitted(cfg, pos, f) {
        MixOutputIsSelection(cfg, f.timestampMs, input[1..]);
        assert MixOutput(cfg, pos, input)[1..] == MixOutput(cfg, f.timestampMs, input[1..]);
      } else {
        MixOutputIsSelection(cfg, pos, input[1..]);
        FirstOutputEmitted(cfg, pos, input[1..]);
      }
    }
  }

  /** Accepted frames whose timestamps never go backwards are never dropped
      as stale: `mix` then returns exactly the accepted frames. */
  lemma {:induction false} MixOutputOfOrderedInput(cfg: MixerConfig, pos: nat, input: seq<AudioFrame>)
    requires forall i, j :: 0 <= i < j < |input| && Accepts(cfg, input[i]) && Accepts(cfg, input[j])
               ==> input[i].timestampMs <= input[j].timestampMs
    requires forall i :: 0 <= i < |input| && Accepts(cfg, input[i])
               ==> input[i].timestampMs >= Cutoff(pos, cfg.maxBufferDelayMs)
    ensures MixOutput(cfg, pos, input) == AcceptedFrames(cfg, input)
    decreases |input|
  {
    if input != [] {
      var f := input[0];
      if Accepts(cfg, f) {
        forall i | 0 <= i < |input[1..]| && Accepts(cfg, input[1..][i])
          ensures input[1..][i].timestampMs >= Cutoff(f.timestampMs, cfg.maxBufferDelayMs)
        {
          assert input[1..][i] == input[i + 1];
        }
        MixOutputOfOrderedInput(cfg, f.timestampMs, input[1..]);
      } else {
        MixOutputOfOrderedInput(cfg, pos, input[1..]);
      }
    }
  }

  /** A fresh mixer returns every accepted frame of a time-ordered stream. */
  lemma FreshMixerKeepsOrderedStream(cfg: MixerConfig, input: seq<AudioFrame>)
    requires forall i, j :: 0 <= i < j < |input| && Accepts(cfg, input[i]) && Accepts(cfg, input[j])
               ==> input[i].timestampMs <= input[j].timestampMs
    ensures MixOutput(cfg, 0, input) == AcceptedFrames(cfg, input)
  {
    MixOutputOfOrderedInput(cfg, 0, input);
  }

  /** Once a frame is emitted the cursor is at its timestamp, so the next
      frame is dropped when it lies more than `maxBufferDelayMs` behind it,
      whether or not it is accepted; the rest of the stream continues from
      the emitted frame's cursor. */
  lemma LateFrameDropped(cfg: MixerConfig, pos: nat, a: AudioFrame, b: AudioFrame, rest: seq<AudioFrame>)
    requires Emitted(cfg, pos, a)
    requires b.timestampMs + cfg.maxBufferDelayMs < a.timestampMs
    ensures MixOutput(cfg, pos, [a, b] + rest) == [a] + MixOutput(cfg, a.timestampMs, rest)
    ensures MixPosition(cfg, pos, [a, b] + rest) == MixPosition(cfg, a.timestampMs, rest)
  {
    var input := [a, b] + rest;
    assert input[0] == a && input[1..] == [b] + rest;
    assert ([b] + rest)[0] == b && ([b] + rest)[1..] == rest;
    assert !Emitted(cfg, a.timestampMs, b);
  }

  /** With no source enabled every frame is rejected and `mix` returns
      nothing: an empty `enabled_sources` set enables no source. */
  lemma {:induction false} NoSourceEnabledMixesNothing(cfg: MixerConfig, pos: nat, input: seq<AudioFrame>)
    requires cfg.enabledSources == {}
    ensures MixOutput(cfg, pos, input) == []
    ensures MixPosition(cfg, pos, input) == pos
    decreases |input|
  {
    if input != [] {
      NoSourceEnabledMixesNothing(cfg, pos, input[1..]);
    }
  }

  // ---------------------------------------------------------------------------
  // The mixer object
  // ---------------------------------------------------------------------------

  /** The frames a sequence of `mix_next_chunk` calls emits until one returns
      None. */
  ghost function Drain(cfg: MixerConfig, b: Buffers, order: seq<Source>): seq<AudioFrame>
    requires IsEnumeration(order, b.Keys)
    decreases Total(b, order)
  {
    match NextChunk(cfg, b, order)
    case None => []
    case Some(f) =>
      TotalPopped(b, order);
      [f] + Drain(cfg, Popped(b), order)
  }

  /** One `mix_next_chunk` call in the flush loop: None ends the drain on
      empty buffers; a frame is the head of the drain of the popped buffers,
      which hold fewer frames. */
  lemma DrainStep(cfg: MixerConfig, b: Buffers, order: seq<Source>, next: Option<AudioFrame>)
    requires IsEnumeration(order, b.Keys) && next == NextChunk(cfg, b, order)
    ensures Popped(b).Keys == b.Keys
    ensures next == None ==> Drain(cfg, b, order) == [] && AllEmpty(b)
    ensures next.Some? ==>
      && Drain(cfg, b, order) == [next.value] + Drain(cfg, Popped(b), order)
      && Total(Popped(b), order) < Total(b, order)
  {
    NextChunkNoneIff(cfg, b, order);
    TotalPopped(b, order);
  }

  /** Empty buffers drain to nothing. */
  lemma DrainIdle(cfg: MixerConfig, b: Buffers, order: seq<Source>)
    requires IsEnumeration(order, b.Keys) && AllEmpty(b)
    ensures Drain(cfg, b, order) == []
  {
    NextChunkNoneIff(cfg, b, order);
  }

  /** One iteration of the pop loop: the next source's front, if any, joins
      the fronts and leaves its buffer. */
  lemma PopStep(b: Buffers, order: seq<Source>, k: nat)
    requires IsEnumeration(order, b.Keys) && k < |order|
    ensures var p := PoppedFor(b, order[..k]);
      var s := order[k];
      && s in p && p.Keys == b.Keys
      && (if p[s] != [] then p[s := p[s][1..]] else p) == PoppedFor(b, order[..k + 1])
      && Fronts(b, order[..k]) + (if p[s] != [] then [p[s][0]] else []) == Fronts(b, order[..k + 1])
  {
    PoppedForStep(b, order, k);
    FrontsStep(b, order, k);
  }

  /** Popping empty buffers changes nothing. */
  lemma PoppedEmpty(b: Buffers)
    requires AllEmpty(b)
    ensures Popped(b) == b
  {
  }

  /** The cursor after draining: the timestamp of the last emitted frame. */
  function LastTimestamp(pos: nat, frames: seq<AudioFrame>): nat {
    if frames == [] then pos else frames[|frames| - 1].timestampMs
  }

  class AudioMixer {
    const config: MixerConfig
    /** The iteration order of the source's buffer map, fixed for the
        mixer's lifetime because its keys never change. */
    const sourceOrder: seq<Source>
    var buffers: Buffers
    var currentPositionMs: nat

    ghost predicate Valid()
      reads this
    {
      buffers.Keys == config.enabledSources && IsEnumeration(sourceOrder, config.enabledSources)
    }

    /** Between two calls of `mix` every buffer is empty. */
    ghost predicate Idle()
      reads this
    {
      AllEmpty(buffers)
    }

    /** `AudioMixer::new`: one empty buffer per enabled source, cursor at 0. */
    constructor (config: MixerConfig, order: seq<Source>)
      requires IsEnumeration(order, config.enabledSources)
      ensures Valid() && Idle()
      ensures this.config == config && sourceOrder == order
      ensures buffers.Keys == config.enabledSources && |buffers| == |config.enabledSources|
      ensures currentPositionMs == 0
    {
      this.config := config;
      sourceOrder := order;
      buffers := map s | s in config.enabledSources :: [];
      currentPositionMs := 0;
    }

    /** `mix`: buffer each received frame and emit what `mix_next_chunk`
        yields, then flush. All buffers are empty at the head of every
        iteration, so the output is the accepted, non-stale input frames,
        unchanged and in arrival order. */
    method Mix(input: seq<AudioFrame>) returns (r: Result<seq<AudioFrame>>)
      requires Valid() && Idle()
      modifies this
      ensures Valid() && Idle()
      ensures r == Success(MixOutput(config, old(currentPositionMs), input))
      ensures currentPositionMs == MixPosition(config, old(currentPositionMs), input)
    {
      var mixedFrames: seq<AudioFrame> := [];
      for i := 0 to |input|
        invariant Valid() && Idle()
        invariant mixedFrames + MixOutput(config, currentPositionMs, input[i..])
                  == MixOutput(config, old(currentPositionMs), input)
        invariant MixPosition(config, currentPositionMs, input[i..])
                  == MixPosition(config, old(currentPositionMs), input)
      {
        var frame := input[i];
        assert input[i..][0] == frame && input[i..][1..] == input[i + 1..];
        IdleStep(config, buffers, sourceOrder, frame, currentPositionMs);
        BufferFrame(frame);
        var next := MixNextChunk();
        match next
        case Failure(e) => return Failure(e);
        case Success(None) =>
        case Success(Some(mixed)) =>
          mixedFrames := mixedFrames + [mixed];
      }
      var rest := FlushRemaining();
      match rest
      case Failure(e) => return Failure(e);
      case Success(tail) =>
        mixedFrames := mixedFrames + tail;
      r := Success(mixedFrames);
    }

    /** The flush loop at the end of `mix`: call `mix_next_chunk` until it
        returns None. On idle buffers it emits nothing. */
    method FlushRemaining() returns (r: Result<seq<AudioFrame>>)
      requires Valid()
      modifies this
      ensures Valid() && Idle()
      ensures r == Success(Drain(config, old(buffers), sourceOrder))
      ensures currentPositionMs == LastTimestamp(old(currentPositionMs), r.value)
      ensures old(Idle()) ==> r.value == [] && currentPositionMs == old(currentPositionMs)
    {
      if Idle() {
        DrainIdle(config, buffers, sourceOrder);
      }
      var out: seq<AudioFrame> := [];
      ghost var total := Drain(config, buffers, sourceOrder);
      while true
        invariant Valid()
        invariant out + Drain(config, buffers, sourceOrder) == total
        invariant currentPositionMs == LastTimestamp(old(currentPositionMs), out)
        decreases Total(buffers, sourceOrder)
      {
        var next := FlushOne(out, total);
        match next
        case Failure(e) => return Failure(e);
        case Success(None) =>
          break;
        case Success(Some(mixed)) =>
          out := out + [mixed];
      }
      r := Success(out);
    }

    /** One call of `mix_next_chunk` in the flush loop, stated against the
        drain: when `out` followed by the drain of the buffers makes up
        `total`, None means `out` is all of it and the buffers are empty,
        while a frame extends `out` and the buffers shrink. */
    method FlushOne(ghost out: seq<AudioFrame>, ghost total: seq<AudioFrame>) returns (r: Result<Option<AudioFrame>>)
      requires Valid() && out + Drain(config, buffers, sourceOrder) == total
      modifies this
      ensures Valid() && r.Success?
      ensures r.value.None? ==> out == total && Idle() && currentPositionMs == old(currentPositionMs)
      ensures r.value.Some? ==>
        (out + [r.value.value]) + Drain(config, buffers, sourceOrder) == total &&
        Total(buffers, sourceOrder) < Total(old(buffers), sourceOrder) &&
        currentPositionMs == r.value.value.timestampMs
    {
      ghost var b := buffers;
      r := MixNextChunk();
      DrainStep(config, b, sourceOrder, r.value);
      if r.value.None? {
        PoppedEmpty(b);
        assert out + [] == out;
      } else {
        ghost var rest := Drain(config, buffers, sourceOrder);
        assert out + [r.value.value] + rest == out + ([r.value.value] + rest);
      }
    }

    /** `buffer_frame`: drop a frame from a disabled source or in a foreign
        format without touching any state; otherwise append it to its own
        buffer and prune every buffer's stale front. */
    method BufferFrame(frame: AudioFrame)
      requires Valid()
      modifies this
      ensures Valid() && currentPositionMs == old(currentPositionMs)
      ensures !Accepts(config, frame) ==> buffers == old(buffers)
      ensures Accepts(config, frame) ==>
        buffers == CleanedBuffers(old(buffers)[frame.source := old(buffers)[frame.source] + [frame]],
                                  Cutoff(currentPositionMs, config.maxBufferDelayMs))
    {
      if frame.source !in config.enabledSources {
        return;
      }
      if frame.sampleRate != config.sampleRate {
        return;
      }
      if frame.channels != config.channels {
        return;
      }
      if frame.source in buffers {
        buffers := buffers[frame.source := buffers[frame.source] + [frame]];
      }
      CleanupOldFrames();
    }

    /** `cleanup_old_frames`: pop every buffer's front while it is older than
        the cursor minus the allowed delay. */
    method CleanupOldFrames()
      requires Valid()
      modifies this
      ensures Valid() && currentPositionMs == old(currentPositionMs)
      ensures buffers == CleanedBuffers(old(buffers), Cutoff(currentPositionMs, config.maxBufferDelayMs))
    {
      var cutoffTime := Cutoff(currentPositionMs, config.maxBufferDelayMs);
      ghost var b0 := buffers;
      for k := 0 to |sourceOrder|
        invariant buffers == CleanedFor(b0, sourceOrder[..k], cutoffTime)
        invariant currentPositionMs == old(currentPositionMs)
      {
        var source := sourceOrder[k];
        CleanedForStep(b0, sourceOrder, k, cutoffTime);
        var buffer := PopStale(buffers[source], cutoffTime);
        buffers := buffers[source := buffer];
      }
      assert sourceOrder[..|sourceOrder|] == sourceOrder;
      CleanedForAll(b0, sourceOrder, cutoffTime);
    }

    /** `mix_next_chunk`: pop one front frame from every non-empty buffer;
        return nothing, the lone frame unchanged, or their mix, and move the
        cursor to the returned frame's timestamp. */
    method MixNextChunk() returns (r: Result<Option<AudioFrame>>)
      requires Valid()
      modifies this
      ensures Valid()
      ensures r == Success(NextChunk(config, old(buffers), sourceOrder))
      ensures buffers == Popped(old(buffers))
      ensures currentPositionMs == if r.value.Some? then r.value.value.timestampMs else old(currentPositionMs)
    {
      var framesToMix := PopFronts();
      if framesToMix == [] {
        return Success(None);
      }
      if |framesToMix| == 1 {
        currentPositionMs := framesToMix[0].timestampMs;
        return Success(Some(framesToMix[0]));
      }
      var mixed := MixMultipleFrames(framesToMix);
      match mixed
      case Failure(e) =>
        r := Failure(e);
      case Success(m) =>
        currentPositionMs := m.timestampMs;
        r := Success(Some(m));
    }

    /** The collecting loop of `mix_next_chunk`: visit the sources in the
        map's order and pop each non-empty buffer's front. */
    method PopFronts() returns (framesToMix: seq<AudioFrame>)
      requires Valid()
      modifies this
      ensures Valid() && currentPositionMs == old(currentPositionMs)
      ensures framesToMix == Fronts(old(buffers), sourceOrder)
      ensures buffers == Popped(old(buffers))
    {
      var popped;
      framesToMix, popped := CollectFronts(buffers);
      buffers := popped;
    }

    /** The loop of `PopFronts` on the buffer map itself. */
    method CollectFronts(b0: Buffers) returns (framesToMix: seq<AudioFrame>, bufs: Buffers)
      requires IsEnumeration(sourceOrder, b0.Keys)
      ensures framesToMix == Fronts(b0, sourceOrder)
      ensures bufs == Popped(b0)
    {
      framesToMix := [];
      bufs := b0;
      for k := 0 to |sourceOrder|
        invariant bufs == PoppedFor(b0, sourceOrder[..k]) && bufs.Keys == b0.Keys
        invariant framesToMix == Fronts(b0, sourceOrder[..k])
      {
        var source := sourceOrder[k];
        PopStep(b0, sourceOrder, k);
        if bufs[source] != [] {
          framesToMix := framesToMix + [bufs[source][0]];
          bufs := bufs[source := bufs[source][1..]];
        }
      }
      assert sourceOrder[..|sourceOrder|] == sourceOrder;
      PoppedForAll(b0, sourceOrder);
    }

    /** `mix_multiple_frames`: an error for no frames; otherwise the clamped
        sample-wise sum, zero-padded to the longest frame, stamped with the
        earliest timestamp and the configured format. */
    method MixMultipleFrames(frames: seq<AudioFrame>) returns (r: Result<AudioFrame>)
      ensures frames == [] ==> r == Failure("Cannot mix zero frames")
      ensures frames != [] ==> r == Success(MixFrames(config, frames))
    {
      if frames == [] {
        return Failure("Cannot mix zero frames");
      }
      var timestampMs := EarliestTimestamp(frames);
      var maxLen := LongestLength(frames);
      var mixedSamples: seq<I16> := [];
      for i := 0 to maxLen
        invariant |mixedSamples| == i
        invariant forall k :: 0 <= k < i ==> mixedSamples[k] == Clamp16(SumAt(frames, k))
      {
        var sum: int := 0;
        for j := 0 to |frames|
          invariant sum == SumAt(frames[..j], i)
        {
          assert frames[..j + 1][..j] == frames[..j];
          var sample := if i < |frames[j].samples| then frames[j].samples[i] else 0;
          sum := sum + sample;
        }
        assert frames[..|frames|] == frames;
        mixedSamples := mixedSamples + [Clamp16(sum)];
      }
      assert mixedSamples == MixFrames(config, frames).samples;
      r := Success(AudioFrame(mixedSamples, config.sampleRate, config.channels, timestampMs, System));
    }
  }
}
