/** Audio sample and frame types shared by every stage of the pipeline
    (src/audio/backend.rs). */
module Audio {

  /** A signed 16-bit PCM sample. */
  type I16 = x: int | -32768 <= x <= 32767

  /** An unsigned byte. */
  type U8 = x: int | 0 <= x < 256

  const I16Min: int := -32768
  const I16Max: int := 32767

  /** Which capture stream a frame came from. */
  datatype Source = System | Microphone

  /** A block of interleaved samples with its format, its timestamp in
      milliseconds since recording started, and its source tag. */
  datatype AudioFrame = AudioFrame(
    samples: seq<I16>,
    sampleRate: nat,
    channels: nat,
    timestampMs: nat,
    source: Source)

  /** `i32::clamp(i16::MIN as i32, i16::MAX as i32)`: the i16 value nearest to `x`. */
  function Clamp16(x: int): (r: I16)
    ensures I16Min <= x <= I16Max ==> r == x
    ensures x < I16Min ==> r == I16Min
    ensures x > I16Max ==> r == I16Max
  {
    if x < I16Min then I16Min else if x > I16Max then I16Max else x
  }
}
