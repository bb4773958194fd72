/** Pipes: their per-frame motion and one-time scoring, the overlap test
    against the bird, and the removal of pipes that have left the screen. */
module Pipes {
  import opened Config
  import opened Physics

  /** A pipe pair: an upper and a lower column around a gap. */
  datatype Pipe = Pipe(x: real, width: real, gapTop: real, gapBottom: real, scored: bool)

  /** The geometry the spawner gives every pipe; motion keeps it. */
  predicate WellFormed(p: Pipe)
  {
    && p.width == PipeWidth
    && p.gapTop >= SafeMargin
    && MinGap <= p.gapBottom - p.gapTop < MaxGap
  }

  /** The pipe moved left by one frame's travel. */
  function Slide(p: Pipe, delta: real): Pipe
  {
    p.(x := p.x - PipeSpeed * delta)
  }

  /** A moved pipe not yet scored whose right edge is behind the bird's left edge. */
  predicate Clears(p: Pipe, birdLeft: real)
  {
    !p.scored && p.x + p.width < birdLeft
  }

  /** One frame of a pipe: it moves, and it becomes scored the first time the
      bird has passed it. */
  function Advance(p: Pipe, delta: real, birdLeft: real): (q: Pipe)
    ensures q.x == p.x - PipeSpeed * delta
    ensures q.width == p.width && q.gapTop == p.gapTop && q.gapBottom == p.gapBottom
    ensures q.scored <==> p.scored || q.x + q.width < birdLeft
    ensures WellFormed(p) ==> WellFormed(q)
  {
    var moved := Slide(p, delta);
    if Clears(moved, birdLeft) then moved.(scored := true) else moved
  }

  /** What one pipe adds to the score in a frame: 1 the first time the bird
      passes it, 0 otherwise. */
  function Gain(p: Pipe, delta: real, birdLeft: real): (n: nat)
    ensures n <= 1
    ensures p.scored ==> n == 0
    ensures n == 1 <==> !p.scored && Advance(p, delta, birdLeft).scored
  {
    if Clears(Slide(p, delta), birdLeft) then 1 else 0
  }

  /** Every pipe of the list advanced by one frame, in order. */
  function AdvanceAll(ps: seq<Pipe>, delta: real, birdLeft: real): (r: seq<Pipe>)
    ensures |r| == |ps|
    ensures forall i :: 0 <= i < |ps| ==> r[i] == Advance(ps[i], delta, birdLeft)
  {
    seq(|ps|, i requires 0 <= i < |ps| => Advance(ps[i], delta, birdLeft))
  }

  /** The points a frame adds: the pipes of the list that are scored for the
      first time. */
  function NewlyScored(ps: seq<Pipe>, delta: real, birdLeft: real): (n: nat)
    ensures n <= |ps|
  {
    if ps == [] then 0
    else NewlyScored(ps[..|ps| - 1], delta, birdLeft) + Gain(ps[|ps| - 1], delta, birdLeft)
  }

  /** The number of pipes of the list already scored. */
  function ScoredCount(ps: seq<Pipe>): (n: nat)
    ensures n <= |ps|
  {
    if ps == [] then 0
    else ScoredCount(ps[..|ps| - 1]) + (if ps[|ps| - 1].scored then 1 else 0)
  }

  /** Every point a frame adds marks exactly one more pipe as scored. */
  lemma {:induction false} ScoringMarksPipes(ps: seq<Pipe>, delta: real, birdLeft: real)
    ensures ScoredCount(AdvanceAll(ps, delta, birdLeft))
            == ScoredCount(ps) + NewlyScored(ps, delta, birdLeft)
  {
    if ps != [] {
      var n := |ps|;
      ScoringMarksPipes(ps[..n - 1], delta, birdLeft);
      assert AdvanceAll(ps, delta, birdLeft)[..n - 1] == AdvanceAll(ps[..n - 1], delta, birdLeft);
    }
  }

  /** Only pipes not yet scored can score, so over its lifetime a pipe adds
      at most one point. */
  lemma {:induction false} OnlyUnscoredPipesScore(ps: seq<Pipe>, delta: real, birdLeft: real)
    ensures ScoredCount(ps) + NewlyScored(ps, delta, birdLeft) <= |ps|
  {
    ScoringMarksPipes(ps, delta, birdLeft);
  }

  /** The bird overlaps the pipe's columns horizontally and its vertical extent
      leaves the gap. */
  predicate Collides(p: Pipe, b: Box)
  {
    b.right > p.x && b.left < p.x + p.width && (b.top < p.gapTop || b.bottom > p.gapBottom)
  }

  /** A bird that stays inside the gap never collides with that pipe, and one
      that overlaps it horizontally collides as soon as it leaves the gap. */
  lemma CollidesOnlyOutsideGap(p: Pipe, b: Box)
    requires b.right > p.x && b.left < p.x + p.width
    ensures Collides(p, b) <==> !(p.gapTop <= b.top && b.bottom <= p.gapBottom)
  {
  }

  /** A pipe that is still (partly) within the cleanup margin. */
  predicate OnScreen(p: Pipe)
  {
    p.x + p.width > CleanupEdge
  }

  /** The pipes kept after a frame: those still on screen, in their order. */
  function KeepOnScreen(ps: seq<Pipe>): (r: seq<Pipe>)
    ensures |r| <= |ps|
    ensures forall p :: p in r <==> p in ps && OnScreen(p)
  {
    if ps == [] then []
    else (if OnScreen(ps[0]) then [ps[0]] else []) + KeepOnScreen(ps[1..])
  }

  /** Filtering distributes over concatenation: pipes keep their relative
      order, and each part of the list is filtered on its own. */
  lemma {:induction false} KeepOnScreenAppend(a: seq<Pipe>, b: seq<Pipe>)
    ensures KeepOnScreen(a + b) == KeepOnScreen(a) + KeepOnScreen(b)
  {
    if a == [] {
      assert a + b == b;
    } else {
      assert (a + b)[0] == a[0];
      assert (a + b)[1..] == a[1..] + b;
      KeepOnScreenAppend(a[1..], b);
    }
  }

  /** Only the pipes that have left the screen are dropped: when all are on
      screen the list is unchanged. */
  lemma {:induction false} KeepOnScreenAll(ps: seq<Pipe>)
    requires forall i :: 0 <= i < |ps| ==> OnScreen(ps[i])
    ensures KeepOnScreen(ps) == ps
  {
    if ps != [] {
      KeepOnScreenAll(ps[1..]);
      assert [ps[0]] + ps[1..] == ps;
    }
  }
}
