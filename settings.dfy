/** The animation-wide constants of src/example.ts. */
module Settings {
  /** Length in seconds of the standard fade, and of the grace period a
      scene keeps drawing after its slot ends. */
  const FADE: real := 0.15

  /** Closed captions are switched on. */
  const SHOW_CC: bool := true

  /** The logical canvas size, the total length in seconds and the frame
      rate of the animation. */
  const WIDTH: real := 1920.0
  const HEIGHT: real := 1080.0
  const DURATION: real := 70.0
  const FPS: real := 30.0
}
