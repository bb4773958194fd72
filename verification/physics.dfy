/** The bird's motion: gravity with a capped fall speed, the display angle
    derived from the velocity, the idle hover in the ready screen, the
    bird's bounding box, and the clamp on the per-frame time step. */
module Physics {
  import opened Config

  /** The bird's resting column: 32% of the viewport width, at most 320 px. */
  function BirdHome(width: Extent): (x: real)
    ensures 0.0 <= x <= 320.0
    ensures x <= width * 0.32
    ensures x == 320.0 || x == width * 0.32
  {
    Min(width * 0.32, 320.0)
  }

  /** The velocity after one frame under gravity, capped at the maximum fall
      speed; upward speed is not capped. */
  function Fall(velocity: real, delta: real): (v: real)
    ensures v <= MaxFallVelocity
    ensures v <= velocity + Gravity * delta
    ensures v == velocity + Gravity * delta || v == MaxFallVelocity
  {
    Min(velocity + Gravity * delta, MaxFallVelocity)
  }

  /** The height after one frame at a velocity. */
  function Travel(y: real, velocity: real, delta: real): real
  {
    y + velocity * delta
  }

  /** The display angle for a velocity: proportional to it, clamped to
      [MinTilt, MaxTilt]. */
  function Tilt(velocity: real): (r: real)
    ensures MinTilt <= r <= MaxTilt
    ensures MinTilt < r < MaxTilt ==> r == velocity / MaxFallVelocity * 1.1
    ensures MinTilt <= velocity / MaxFallVelocity * 1.1 <= MaxTilt ==> r == velocity / MaxFallVelocity * 1.1
    ensures velocity / MaxFallVelocity * 1.1 < MinTilt ==> r == MinTilt
    ensures velocity / MaxFallVelocity * 1.1 > MaxTilt ==> r == MaxTilt
  {
    Min(Max(MinTilt, velocity / MaxFallVelocity * 1.1), MaxTilt)
  }

  /** A faster fall never gives a smaller angle. */
  lemma TiltMonotone(v1: real, v2: real)
    requires v1 <= v2
    ensures Tilt(v1) <= Tilt(v2)
  {
  }

  /** The bird's height in the ready screen: a sine-driven bob around 45% of
      the viewport height, of amplitude at most 22 px and 4% of the height. */
  function HoverY(height: Extent, sine: Sine): (y: real)
    ensures height * 0.45 - 22.0 <= y <= height * 0.45 + 22.0
    ensures height * 0.45 - height * 0.04 <= y <= height * 0.45 + height * 0.04
  {
    var amplitude := Min(22.0, height * 0.04);
    assert -amplitude <= sine * amplitude <= amplitude by {
      assert (1.0 - sine) * amplitude >= 0.0;
      assert (1.0 + sine) * amplitude >= 0.0;
    }
    height * 0.45 + sine * amplitude
  }

  /** The bird's angle in the ready screen, a tenth of the sine. */
  function HoverTilt(sine: Sine): (r: real)
    ensures -0.1 <= r <= 0.1
    ensures MinTilt <= r <= MaxTilt
  {
    sine * 0.1
  }

  /** The bird's bounding box. */
  datatype Box = Box(left: real, right: real, top: real, bottom: real)

  /** The box of a bird centred at (x, y). */
  function BirdBox(x: real, y: real): (b: Box)
    ensures b.right - b.left == BirdWidth && b.bottom - b.top == BirdHeight
    ensures (b.left + b.right) / 2.0 == x && (b.top + b.bottom) / 2.0 == y
  {
    Box(x - BirdWidth / 2.0, x + BirdWidth / 2.0, y - BirdHeight / 2.0, y + BirdHeight / 2.0)
  }

  /** The ground collision line: 88% down the viewport. */
  function GroundLine(height: Extent): (g: real)
    ensures 0.0 <= g <= height
    ensures g == height * 0.88
  {
    height - height * 0.12
  }

  /** The time step of a frame, in seconds: the elapsed milliseconds since the
      previous frame, never more than MaxFrameDelta. */
  function FrameDelta(timestamp: real, last: real): (d: real)
    ensures d <= MaxFrameDelta
    ensures timestamp - last <= 50.0 ==> d == (timestamp - last) / 1000.0
    ensures timestamp - last >= 50.0 ==> d == MaxFrameDelta
    ensures timestamp >= last ==> d >= 0.0
  {
    Min((timestamp - last) / 1000.0, MaxFrameDelta)
  }

  /** Five 0.1 s frames from rest: the clamp applies every frame, so the
      fifth frame ends at the maximum fall speed (820), not at the 900 that
      unclamped integration would give. */
  lemma {:induction false} FallFromRest()
    ensures Fall(Fall(Fall(Fall(0.0, 0.1), 0.1), 0.1), 0.1) == 720.0
    ensures Fall(Fall(Fall(Fall(Fall(0.0, 0.1), 0.1), 0.1), 0.1), 0.1) == MaxFallVelocity
  {
  }

  /** A flap followed by one 0.1 s frame leaves the bird rising at 340 px/s. */
  lemma FlapThenCoast()
    ensures Fall(JumpVelocity, 0.1) == -340.0
  {
  }
}
