/** The tuning constants of the simulation (the CONFIG record and the bird's
    fixed size) and the bounded types standing for the values the host
    supplies: random draws, sine values and viewport extents. */
module Config {

  const Gravity: real := 1800.0          // px per second^2
  const JumpVelocity: real := -520.0     // px per second
  const MaxFallVelocity: real := 820.0
  const PipeWidth: real := 110.0
  const PipeInterval: real := 1.75       // seconds between spawns
  const PipeSpeed: real := 250.0
  const MinGap: real := 180.0
  const MaxGap: real := 260.0
  const SafeMargin: real := 86.0

  /** The bird record's width and height, never changed after load. */
  const BirdWidth: real := 58.0
  const BirdHeight: real := 42.0

  /** Bounds of the bird's display angle while flying. */
  const MinTilt: real := -0.5
  const MaxTilt: real := 0.7

  /** The bird's top edge may not rise above this line. */
  const CeilingTop: real := SafeMargin * 0.35

  /** A pipe is dropped once its right edge is at or left of this line. */
  const CleanupEdge: real := -200.0

  /** The largest time step one frame may apply, in seconds. */
  const MaxFrameDelta: real := 0.05

  /** One draw of Math.random(). */
  type Fraction = r: real | 0.0 <= r < 1.0 witness 0.0

  /** One value of Math.sin. */
  type Sine = r: real | -1.0 <= r <= 1.0 witness 0.0

  /** A viewport width or height. */
  type Extent = r: real | 0.0 <= r witness 0.0

  /** Math.min and Math.max on two numbers. */
  function Min(a: real, b: real): real { if a <= b then a else b }
  function Max(a: real, b: real): real { if a >= b then a else b }

  /** Math.round: the nearest integer, halves rounded up. */
  function Round(x: real): (n: int)
    ensures x - 0.5 < n as real <= x + 0.5
  {
    (x + 0.5).Floor
  }

  /** A draw scales a non-negative quantity into [0, c], strictly below c when c > 0. */
  lemma Scaled(f: Fraction, c: real)
    requires c >= 0.0
    ensures 0.0 <= f * c <= c
    ensures c > 0.0 ==> f * c < c
  {
    assert (1.0 - f) * c >= 0.0;
  }
}
