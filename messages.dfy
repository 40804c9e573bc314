/** Values exchanged between the orchestrator, the client sessions, the
    registration server and the score engine.  The message set is the one the
    processes actually construct and test for, including the messages that are
    imported from the message module but not declared there. */
module Messages {

  datatype Option<+T> = None | Some(value: T)

  /** One colour channel of a pixel: an unsigned 8-bit value. */
  newtype byte = x: int | 0 <= x < 256

  /** An RGB triple, as stored in the canvas and as the keys of a scoreboard. */
  datatype Rgb = Rgb(r: byte, g: byte, b: byte)

  /** The canvas background, filled at start-up. */
  const Black := Rgb(0, 0, 0)

  /** The fixed palette a client colour is chosen from (red, green, blue,
      yellow, orange, purple, cyan, pink), in this order. */
  const Palette: seq<Rgb> := [
    Rgb(255, 0, 0), Rgb(0, 255, 0), Rgb(0, 0, 255), Rgb(255, 255, 0),
    Rgb(255, 165, 0), Rgb(128, 0, 128), Rgb(0, 255, 255), Rgb(255, 192, 203)
  ]

  /** Network identity of a tracking device, the key of the client table. */
  type Host = string

  /** A point in screen (or canvas-local) pixel coordinates. */
  datatype Point = Point(x: real, y: real)

  /** One scoreboard entry: a colour and the number of canvas pixels that have it. */
  datatype Score = Score(color: Rgb, count: nat)

  datatype Msg =
    | Quit
    | ClientIdentify(host: Host)
    | ClientStatus(host: Host, status: string)
    | GazePoint(host: Host, x: real, y: real)
    | Swatches(colors: seq<Rgb>)
    | Draw(host: Host, color: Option<Rgb>, enabled: bool)
    | CalculateScore
    | UpdatedScores(scores: seq<Score>)
    | Debug(text: string)

  const StatusNew := "new"
  const StatusStarted := "started"
}
