/** The value types shared by every renderer (lib/types.ts). */
module Types {

  datatype Option<T> = None | Some(value: T) {
    function GetOr(default: T): T {
      match this
      case Some(v) => v
      case None => default
    }
  }

  /**
   * `colorPalette: string | string[]`: a palette key, a literal list of
   * colours, or `undefined` (what a lookup of a missing custom palette stores).
   */
  datatype PaletteSel = Named(key: string) | Literal(colors: seq<string>) | Undefined

  /** The single configuration object read by every renderer. */
  datatype ArtParameters = ArtParameters(
    pattern: string,
    colorPalette: PaletteSel,
    shapeCount: int,
    shapeSize: real,
    animationSpeed: real,
    rotationSpeed: real,
    opacity: real,
    complexity: real,
    isAnimated: bool,
    audioReactive: bool,
    backgroundColor: string,
    fractalType: string,
    fractalIterations: int,
    fractalScale: real,
    fractalAngle: real)

  /** A snapshot of the microphone reduction: loudness and dominant bucket. */
  datatype AudioData = AudioData(volume: real, frequency: real)

  const Silence := AudioData(0.0, 0.0)
}
