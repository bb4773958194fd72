/** The parallax background: three large nebula glows placed by index, three
    layers of drifting stars, ground-level dust streaks, and the per-frame
    drift that wraps particles from the left edge back to the right. */
module Background {
  import opened Config

  // ---------------------------------------------------------------- helpers

  /** A draw times a non-negative quantity: x = random * width and the like. */
  function Portion(f: Fraction, c: real): (r: real)
    requires c >= 0.0
    ensures 0.0 <= r <= c
    ensures c > 0.0 ==> r < c
  {
    Scaled(f, c);
    f * c
  }

  /** base * (0.8 + random * 0.4): the base value give or take 20%. */
  function Jitter(base: real, f: Fraction): (r: real)
    requires base >= 0.0
    ensures base * 0.8 <= r <= base * 1.2
    ensures base > 0.0 ==> r < base * 1.2
  {
    Scaled(f, base);
    assert base * (0.8 + f * 0.4) == base * 0.8 + (f * base) * 0.4;
    base * (0.8 + f * 0.4)
  }

  /** height * (0.65 + random * 0.35): a height in the lower 35% of the viewport. */
  function LowBand(height: Extent, f: Fraction): (r: real)
    ensures height * 0.65 <= r <= height
    ensures height > 0.0 ==> r < height
  {
    Scaled(f, height);
    assert height * (0.65 + f * 0.35) == height * 0.65 + (f * height) * 0.35;
    height * (0.65 + f * 0.35)
  }

  // ---------------------------------------------------------------- nebulas

  datatype Nebula = Nebula(x: real, y: real, radius: real, hue: real, alpha: real, distortion: real)

  const NebulaCount: nat := 3

  /** The i-th nebula: position and size scale with the viewport, hue, alpha
      and distortion depend on the index only. */
  function NebulaAt(width: Extent, height: Extent, i: nat): Nebula
  {
    var baseSize := Max(width, height) * (0.6 + i as real * 0.25);
    Nebula(width * (0.2 + i as real * 0.35),
           height * (0.35 + i as real * 0.12),
           baseSize,
           210.0 + i as real * 45.0,
           0.24 - i as real * 0.04,
           0.18 + i as real * 0.05)
  }

  /** Each of the three nebulas is centred inside the viewport, at least 0.6
      of the larger viewport side in radius, and visible. */
  lemma {:induction false} NebulaInside(width: Extent, height: Extent, i: nat)
    requires i < NebulaCount
    ensures 0.0 <= NebulaAt(width, height, i).x <= width
    ensures 0.0 <= NebulaAt(width, height, i).y <= height
    ensures NebulaAt(width, height, i).radius >= Max(width, height) * 0.6
    ensures 0.0 < NebulaAt(width, height, i).alpha < 1.0
  {
    // one case per nebula keeps the products with the index linear
    if i == 0 {
    } else if i == 1 {
    } else {
      assert i == 2;
    }
  }

  /** Later nebulas are larger, shifted in hue and fainter. */
  lemma {:induction false} NebulaProgression(width: Extent, height: Extent, i: nat, j: nat)
    requires i < j < NebulaCount
    ensures NebulaAt(width, height, i).radius <= NebulaAt(width, height, j).radius
    ensures NebulaAt(width, height, i).hue < NebulaAt(width, height, j).hue
    ensures NebulaAt(width, height, i).alpha > NebulaAt(width, height, j).alpha
  {
    var m := Max(width, height);
    if i == 0 && j == 1 {
      assert m * 0.6 <= m * 0.85;
    } else if i == 0 {
      assert j == 2;
      assert m * 0.6 <= m * 1.1;
    } else {
      assert i == 1 && j == 2;
      assert m * 0.85 <= m * 1.1;
    }
  }

  /** generateNebulas: the three nebulas for a viewport. */
  function Nebulas(width: Extent, height: Extent): (r: seq<Nebula>)
    ensures |r| == NebulaCount
    ensures forall i :: 0 <= i < |r| ==> 0.0 <= r[i].x <= width && 0.0 <= r[i].y <= height
    ensures forall i :: 0 <= i < |r| ==> r[i].radius >= Max(width, height) * 0.6
    ensures forall i, j :: 0 <= i < j < |r| ==> r[i].hue < r[j].hue && r[i].alpha > r[j].alpha
  {
    var r := seq(NebulaCount, i requires 0 <= i => NebulaAt(width, height, i));
    forall i | 0 <= i < |r|
      ensures 0.0 <= r[i].x <= width && 0.0 <= r[i].y <= height
      ensures r[i].radius >= Max(width, height) * 0.6
    {
      NebulaInside(width, height, i);
    }
    forall i, j | 0 <= i < j < |r|
      ensures r[i].hue < r[j].hue && r[i].alpha > r[j].alpha
    {
      NebulaProgression(width, height, i, j);
    }
    r
  }

  /** Regenerating after a resize changes only where and how large the
      nebulas are: their colours, alphas and distortions stay the same. */
  lemma NebulaStyleIndependentOfViewport(w1: Extent, h1: Extent, w2: Extent, h2: Extent, i: nat)
    requires i < NebulaCount
    ensures Nebulas(w1, h1)[i].hue == Nebulas(w2, h2)[i].hue
    ensures Nebulas(w1, h1)[i].alpha == Nebulas(w2, h2)[i].alpha
    ensures Nebulas(w1, h1)[i].distortion == Nebulas(w2, h2)[i].distortion
  {
  }

  // ---------------------------------------------------------------- stars

  /** A parallax layer of the configuration. */
  datatype Layer = Layer(countScale: real, sizeMin: real, sizeMax: real, speed: real, alpha: real)

  const Layers: seq<Layer> := [
    Layer(0.8, 1.8, 3.5, 12.0, 0.45),
    Layer(1.1, 1.2, 2.3, 28.0, 0.68),
    Layer(1.4, 0.9, 1.6, 60.0, 0.85)
  ]

  /** A star: its position and its own drift speed. */
  datatype Star = Star(x: real, y: real, speed: real)

  /** The draws a new star consumes for its position and speed. */
  datatype StarDraw = StarDraw(x: Fraction, y: Fraction, speed: Fraction)

  /** The draws a wrapping particle consumes: a horizontal overshoot and a
      new height. */
  datatype Roll = Roll(x: Fraction, y: Fraction)

  /** The number of stars in a layer: proportional to the viewport area
      (rounded), but never fewer than 12. */
  function StarCount(width: Extent, height: Extent, layer: nat): (n: nat)
    requires layer < |Layers|
    ensures n >= 12
    ensures n >= Round(width * height / 12000.0 * Layers[layer].countScale)
    ensures width * height / 12000.0 * Layers[layer].countScale < 11.5 ==> n == 12
  {
    var k := Round(width * height / 12000.0 * Layers[layer].countScale);
    if k >= 12 then k else 12
  }

  /** A star of the given layer lies in the viewport and drifts at the
      layer's speed, give or take 20%. */
  predicate InLayerBand(s: Star, layer: nat, width: Extent, height: Extent)
    requires layer < |Layers|
  {
    && 0.0 <= s.x <= width && (width > 0.0 ==> s.x < width)
    && 0.0 <= s.y <= height && (height > 0.0 ==> s.y < height)
    && Layers[layer].speed * 0.8 <= s.speed < Layers[layer].speed * 1.2
  }

  function NewStar(width: Extent, height: Extent, layer: nat, d: StarDraw): (s: Star)
    requires layer < |Layers|
    ensures InLayerBand(s, layer, width, height)
  {
    Star(Portion(d.x, width), Portion(d.y, height), Jitter(Layers[layer].speed, d.speed))
  }

  /** generateStars: one list per layer, each of StarCount stars in the
      layer's band; draw(l, k) are the draws of star k of layer l. */
  function GenerateStars(width: Extent, height: Extent, draw: (nat, nat) -> StarDraw): (r: seq<seq<Star>>)
    ensures |r| == |Layers|
    ensures forall l :: 0 <= l < |r| ==> |r[l]| == StarCount(width, height, l) >= 12
    ensures forall l, k :: 0 <= l < |r| && 0 <= k < |r[l]| ==> InLayerBand(r[l][k], l, width, height)
  {
    var r := seq(|Layers|, l requires 0 <= l < |Layers| =>
      seq(StarCount(width, height, l), k requires 0 <= k => NewStar(width, height, l, draw(l, k))));
    assert forall l, k :: 0 <= l < |r| && 0 <= k < |r[l]| ==> r[l][k] == NewStar(width, height, l, draw(l, k));
    r
  }

  /** One frame of a star: it drifts left by its speed; once past x = -20 it
      reappears 20 to 60 px beyond the right edge at a new height. */
  function MoveStar(s: Star, delta: real, width: Extent, height: Extent, roll: Roll): (r: Star)
    ensures r.speed == s.speed
    ensures r.x >= -20.0
    ensures s.x - s.speed * delta < -20.0 ==>
              width + 20.0 <= r.x < width + 60.0 && 0.0 <= r.y <= height
    ensures s.x - s.speed * delta >= -20.0 ==> r == s.(x := s.x - s.speed * delta)
  {
    var x := s.x - s.speed * delta;
    if x < -20.0 then Star(width + 20.0 + roll.x * 40.0, Portion(roll.y, height), s.speed)
    else s.(x := x)
  }

  // ---------------------------------------------------------------- dust

  /** A ground-level dust streak. */
  datatype Dust = Dust(x: real, y: real, length: real, speed: real)

  /** The draws a new dust streak consumes. */
  datatype DustDraw = DustDraw(x: Fraction, y: Fraction, length: Fraction, speed: Fraction)

  /** The number of dust streaks: proportional to the viewport width
      (rounded), but never fewer than 18. */
  function DustCount(width: Extent): (n: nat)
    ensures n >= 18
    ensures n >= Round(width / 10.0 * 0.8)
    ensures width / 10.0 * 0.8 < 17.5 ==> n == 18
  {
    var k := Round(width / 10.0 * 0.8);
    if k >= 18 then k else 18
  }

  /** A streak lies in the lower 35% of the viewport, 40 to 100 px long,
      drifting at 60 to 140 px/s. */
  predicate InDustBand(p: Dust, width: Extent, height: Extent)
  {
    && 0.0 <= p.x <= width
    && height * 0.65 <= p.y <= height
    && 40.0 <= p.length < 100.0
    && 60.0 <= p.speed < 140.0
  }

  function NewDust(width: Extent, height: Extent, d: DustDraw): (p: Dust)
    ensures InDustBand(p, width, height)
  {
    Dust(Portion(d.x, width), LowBand(height, d.y), 40.0 + d.length * 60.0, 60.0 + d.speed * 80.0)
  }

  /** generateDust: DustCount streaks in the dust band; draw(k) are the draws
      of streak k. */
  function GenerateDust(width: Extent, height: Extent, draw: nat -> DustDraw): (r: seq<Dust>)
    ensures |r| == DustCount(width) >= 18
    ensures forall k :: 0 <= k < |r| ==> InDustBand(r[k], width, height)
  {
    var r := seq(DustCount(width), k requires 0 <= k => NewDust(width, height, draw(k)));
    assert forall k :: 0 <= k < |r| ==> r[k] == NewDust(width, height, draw(k));
    r
  }

  /** One frame of a streak: it drifts left by its speed; once wholly past the
      left edge it reappears up to 20% of a width beyond the right edge, at a
      new height in the dust band. */
  function MoveDust(p: Dust, delta: real, width: Extent, height: Extent, roll: Roll): (r: Dust)
    ensures r.length == p.length && r.speed == p.speed
    ensures p.length >= 0.0 ==> r.x >= -r.length
    ensures p.x - p.speed * delta < -p.length ==>
              width <= r.x <= width * 1.2 && height * 0.65 <= r.y <= height
    ensures p.x - p.speed * delta >= -p.length ==> r == p.(x := p.x - p.speed * delta)
  {
    var x := p.x - p.speed * delta;
    if x < -p.length then p.(x := width + Portion(roll.x, width) * 0.2, y := LowBand(height, roll.y))
    else p.(x := x)
  }
}
