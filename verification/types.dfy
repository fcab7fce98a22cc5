/** Record shapes and enumerations shared by the audio engine and the chambers. */
module Types {

  datatype Option<+T> = None | Some(value: T)

  /** An element of an 8-bit unsigned byte array (pixel channels, spectrum bins). */
  newtype Byte = b: int | 0 <= b < 256

  /** The three scales the pitch quantiser knows. */
  datatype AudioScale = Pentatonic | Phrygian | Chromatic

  /** Oscillator shapes a voice can use. */
  datatype Waveform = Sine | Triangle | Square

  /** A 2-D position (canvas pixels or normalised coordinates, as the caller says). */
  datatype Point = Point(x: real, y: real)

  /** A note placed on the radar sequencer; x and y are normalised to the canvas. */
  datatype AudioNodeData = AudioNodeData(
    id: string,
    x: real,
    y: real,
    active: bool,
    frequency: real,
    life: real)

  /** The sequencer's user-tunable parameters. */
  datatype ConsoleConfig = ConsoleConfig(scale: AudioScale, waveform: Waveform, tempo: real)

  /** A trailing particle of the ink chamber. */
  datatype InkParticle = InkParticle(
    x: real,
    y: real,
    vx: real,
    vy: real,
    life: real,
    history: seq<Point>,
    hue: real,
    size: real)

  /** The arguments of one call to the audio engine's ping: frequency, horizontal
      position in [0,1] before panning, and waveform. */
  datatype Ping = Ping(freq: real, panX: real, wave: Waveform)

  /** One more row (or column) of c cells adds c to the product. */
  lemma MulSucc(m: nat, c: nat)
    ensures m * c + c == (m + 1) * c
  {
  }
}
