/** The pipe spawner: a new pipe just off the right edge with a random gap
    size and a random gap position inside the safe band. */
module Spawner {
  import opened Config
  import opened Pipes

  /** The two Math.random() draws spawnPipe consumes, in order. */
  datatype SpawnDraw = SpawnDraw(size: Fraction, position: Fraction)

  /** The random part of the gap: a draw times the spread, scaled by a factor in [0, 1]. */
  lemma GapSpread(f: Fraction, scale: real)
    requires 0.0 <= scale <= 1.0
    ensures 0.0 <= f * (MaxGap - MinGap) * scale <= (MaxGap - MinGap) * scale
    ensures f * (MaxGap - MinGap) * scale < MaxGap - MinGap
  {
    assert (1.0 - f) * scale >= 0.0;
  }

  /** The gap size for a draw: at least MinGap; the random part of the range
      shrinks in proportion on viewports shorter than 720 px. */
  function GapSize(height: Extent, f: Fraction): (g: real)
    ensures MinGap <= g < MaxGap
    ensures g <= MinGap + (MaxGap - MinGap) * height / 720.0
  {
    var scale := Min(1.0, height / 720.0);
    GapSpread(f, scale);
    MinGap + f * (MaxGap - MinGap) * scale
  }

  /** The slack the gap can move in: the band between the two safe margins
      left over by the gap. */
  function Slack(height: Extent, gapSize: real): real
  {
    (height - SafeMargin - gapSize) - SafeMargin
  }

  /** A gap top drawn uniformly from [minTop, minTop + range). */
  function PlaceGap(minTop: real, range: real, f: Fraction): (t: real)
    requires range >= 1.0
    ensures minTop <= t < minTop + range
  {
    Scaled(f, range);
    minTop + f * range
  }

  /** The pipe spawnPipe creates for a viewport and two draws. When the slack
      is under 1 px the gap is placed within 1 px of the top margin (the range
      is taken as 1, so nothing divides by zero and no spawn is skipped). */
  function NewPipe(width: Extent, height: Extent, d: SpawnDraw): (p: Pipe)
    ensures p.x == width + PipeWidth && !p.scored
    ensures WellFormed(p)
    ensures p.gapBottom - p.gapTop == GapSize(height, d.size)
    ensures Slack(height, GapSize(height, d.size)) >= 1.0 ==> p.gapBottom < height - SafeMargin
    ensures Slack(height, GapSize(height, d.size)) < 1.0 ==> p.gapTop < SafeMargin + 1.0
  {
    var gapSize := GapSize(height, d.size);
    var maxTop := height - SafeMargin - gapSize;
    var minTop := SafeMargin;
    var gapTop := PlaceGap(minTop, Max(1.0, maxTop - minTop), d.position);
    Pipe(width + PipeWidth, PipeWidth, gapTop, gapTop + gapSize, false)
  }
}
