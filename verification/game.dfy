/** The live game: the bird and state records, the ready / playing /
    game-over state machine, the per-frame step and the frame loop's time
    step. Wall-clock readings (performance.now() and the frame timestamps),
    Math.random() draws and Math.sin values are parameters. */
module Game {
  import opened Config
  import opened Physics
  import opened Pipes
  import opened Spawner
  import opened Background

  datatype Mode = Ready | Playing | GameOver

  /** The pipe list after the spawn timer reaches timer: one new pipe is
      appended once the interval is reached. */
  function Queued(pipes0: seq<Pipe>, timer: real, width: Extent, height: Extent, spawn: SpawnDraw): seq<Pipe>
  {
    if timer >= PipeInterval then pipes0 + [NewPipe(width, height, spawn)] else pipes0
  }

  /** The bird record. Its width and height never change: BirdWidth and
      BirdHeight. */
  class Bird {
    var x: real
    var y: real
    var velocity: real
    var rotation: real
    var flapTime: real

    constructor ()
      ensures x == 0.0 && y == 0.0 && velocity == 0.0 && rotation == 0.0 && flapTime == 0.0
    {
      x, y, velocity, rotation, flapTime := 0.0, 0.0, 0.0, 0.0, 0.0;
    }
  }

  /** The state record together with the bird it owns. */
  class Game {
    var mode: Mode
    var width: Extent
    var height: Extent
    var score: nat
    var best: nat
    var pipes: seq<Pipe>
    var stars: seq<seq<Star>>
    var nebulas: seq<Nebula>
    var dust: seq<Dust>
    var pipeTimer: real
    var readyTime: real
    var lastTimestamp: real
    const bird: Bird

    /** What every operation keeps: the best score covers the score, the
        spawn timer is below the interval, the ready screen has no pipes and
        no score, every pipe has spawner geometry, the bird's fall speed and
        angle are bounded, and the background has its three star layers of
        at least 12 stars and at least 18 dust streaks. */
    ghost predicate Valid()
      reads this, bird
    {
      && score <= best
      && pipeTimer < PipeInterval
      && (mode == Ready ==> pipes == [] && score == 0 && pipeTimer == 0.0)
      && (forall p :: p in pipes ==> WellFormed(p))
      && bird.velocity <= MaxFallVelocity
      && MinTilt <= bird.rotation <= MaxTilt
      && |stars| == |Layers| && (forall l :: 0 <= l < |stars| ==> |stars[l]| >= 12)
      && |dust| >= 18
    }

    /** The bird rests at its start position, still and level. */
    ghost predicate AtHome()
      reads this, bird
    {
      bird.x == BirdHome(width) && bird.y == height * 0.45 && bird.velocity == 0.0 && bird.rotation == 0.0
    }

    /** A round's counters are cleared: no score, no spawn time, no pipes. */
    ghost predicate Cleared()
      reads this
    {
      score == 0 && pipeTimer == 0.0 && pipes == []
    }

    /** The stars and dust are those of s0 and d0 after one frame of drift. */
    ghost predicate Drifted(s0: seq<seq<Star>>, d0: seq<Dust>, delta: real,
                            starRoll: (nat, nat) -> Roll, dustRoll: nat -> Roll)
      reads this
    {
      && |stars| == |s0|
      && (forall l :: 0 <= l < |stars| ==> |stars[l]| == |s0[l]|)
      && (forall l, k :: 0 <= l < |stars| && 0 <= k < |stars[l]| && l < |s0| && k < |s0[l]| ==>
            stars[l][k] == MoveStar(s0[l][k], delta, width, height, starRoll(l, k)))
      && |dust| == |d0|
      && (forall k :: 0 <= k < |dust| ==> dust[k] == MoveDust(d0[k], delta, width, height, dustRoll(k)))
    }

    /** The state at load followed by the first resize: the viewport, a
        fresh background and the bird at its start position. */
    constructor (innerWidth: Extent, innerHeight: Extent, storedBest: nat, now: real,
                 starDraw: (nat, nat) -> StarDraw, dustDraw: nat -> DustDraw)
      ensures Valid() && fresh(bird)
      ensures mode == Ready && Cleared() && best == storedBest
      ensures width == innerWidth && height == innerHeight
      ensures nebulas == Nebulas(innerWidth, innerHeight)
      ensures stars == GenerateStars(innerWidth, innerHeight, starDraw)
      ensures dust == GenerateDust(innerWidth, innerHeight, dustDraw)
      ensures readyTime == 0.0 && lastTimestamp == now
      ensures AtHome() && bird.flapTime == 0.0
    {
      mode := Ready;
      width, height := innerWidth, innerHeight;
      score, best := 0, storedBest;
      pipes := [];
      nebulas := Nebulas(innerWidth, innerHeight);
      stars := GenerateStars(innerWidth, innerHeight, starDraw);
      dust := GenerateDust(innerWidth, innerHeight, dustDraw);
      pipeTimer, readyTime, lastTimestamp := 0.0, 0.0, now;
      bird := new Bird();
      new;
      ResetBirdPosition();
    }

    /** resetBirdPosition: back to the start position, still and level. */
    method ResetBirdPosition()
      modifies bird
      ensures AtHome()
      ensures bird.flapTime == old(bird.flapTime)
    {
      bird.x := BirdHome(width);
      bird.y := height * 0.45;
      bird.velocity := 0.0;
      bird.rotation := 0.0;
    }

    /** The state part of resizeCanvas: the new viewport, a regenerated
        background, and the bird back at its start position. */
    method Resize(innerWidth: Extent, innerHeight: Extent,
                  starDraw: (nat, nat) -> StarDraw, dustDraw: nat -> DustDraw)
      requires Valid()
      modifies this`width, this`height, this`nebulas, this`stars, this`dust, bird
      ensures Valid()
      ensures width == innerWidth && height == innerHeight
      ensures nebulas == Nebulas(innerWidth, innerHeight)
      ensures stars == GenerateStars(innerWidth, innerHeight, starDraw)
      ensures dust == GenerateDust(innerWidth, innerHeight, dustDraw)
      ensures AtHome() && bird.flapTime == old(bird.flapTime)
    {
      width, height := innerWidth, innerHeight;
      nebulas := Nebulas(width, height);
      stars := GenerateStars(width, height, starDraw);
      dust := GenerateDust(width, height, dustDraw);
      ResetBirdPosition();
    }

    /** setMode (state part). Entering Ready or Playing clears the round;
        Ready also notes the time and puts the bird back; Playing restarts the
        frame clock; GameOver changes the mode only. */
    method SetMode(m: Mode, now: real)
      requires Valid()
      modifies this`mode, this`pipeTimer, this`pipes, this`score, this`readyTime, this`lastTimestamp, bird
      ensures Valid()
      ensures mode == m
      ensures m != GameOver ==> Cleared()
      ensures m == Ready ==> readyTime == now && AtHome() && lastTimestamp == old(lastTimestamp)
      ensures m == Playing ==> lastTimestamp == now && readyTime == old(readyTime) && unchanged(bird)
      ensures m == GameOver ==>
                && pipes == old(pipes) && score == old(score) && pipeTimer == old(pipeTimer)
                && readyTime == old(readyTime) && lastTimestamp == old(lastTimestamp) && unchanged(bird)
      ensures bird.flapTime == old(bird.flapTime)
    {
      mode := m;
      if m == Ready {
        pipeTimer := 0.0;
        pipes := [];
        score := 0;
        readyTime := now;
        ResetBirdPosition();
      } else if m == Playing {
        pipeTimer := 0.0;
        pipes := [];
        score := 0;
        lastTimestamp := now;
      }
    }

    /** startGame: begins a round unless one is under way. Reached from the
        play button too, so a finished round restarts without moving the
        bird back. */
    method StartGame(now: real)
      requires Valid()
      modifies this`mode, this`pipeTimer, this`pipes, this`score, this`readyTime, this`lastTimestamp, bird
      ensures Valid()
      ensures mode == Playing && unchanged(bird) && readyTime == old(readyTime)
      ensures old(mode) == Playing ==> unchanged(this)
      ensures old(mode) != Playing ==> Cleared() && lastTimestamp == now
    {
      if mode == Playing {
        return;
      }
      SetMode(Playing, now);
    }

    /** flap: the upward impulse replaces the velocity, whatever it was. */
    method Flap(now: real)
      requires Valid()
      modifies bird
      ensures Valid()
      ensures bird.velocity == JumpVelocity && bird.flapTime == now
      ensures bird.x == old(bird.x) && bird.y == old(bird.y) && bird.rotation == old(bird.rotation)
    {
      bird.velocity := JumpVelocity;
      bird.flapTime := now;
    }

    /** handlePrimaryAction: from Ready, start and flap; while Playing, flap;
        from GameOver, back to Ready. modeNow is the clock reading setMode
        takes and flapNow the later one flap takes. */
    method HandlePrimaryAction(modeNow: real, flapNow: real)
      requires Valid()
      modifies this`mode, this`pipeTimer, this`pipes, this`score, this`readyTime, this`lastTimestamp, bird
      ensures Valid()
      ensures old(mode) == Ready ==>
                && mode == Playing && Cleared() && lastTimestamp == modeNow && readyTime == old(readyTime)
                && bird.velocity == JumpVelocity && bird.flapTime == flapNow
                && bird.x == old(bird.x) && bird.y == old(bird.y) && bird.rotation == old(bird.rotation)
      ensures old(mode) == Playing ==>
                && mode == Playing && pipes == old(pipes) && score == old(score)
                && pipeTimer == old(pipeTimer) && lastTimestamp == old(lastTimestamp)
                && readyTime == old(readyTime)
                && bird.velocity == JumpVelocity && bird.flapTime == flapNow
                && bird.x == old(bird.x) && bird.y == old(bird.y) && bird.rotation == old(bird.rotation)
      ensures old(mode) == GameOver ==>
                && mode == Ready && Cleared() && AtHome() && readyTime == modeNow
                && lastTimestamp == old(lastTimestamp) && bird.flapTime == old(bird.flapTime)
    {
      if mode == Ready {
        StartGame(modeNow);
        Flap(flapNow);
      } else if mode == Playing {
        Flap(flapNow);
      } else if mode == GameOver {
        SetMode(Ready, modeNow);
      }
    }

    /** spawnPipe: appends one new pipe. */
    method SpawnPipe(d: SpawnDraw)
      modifies this`pipes
      ensures pipes == old(pipes) + [NewPipe(width, height, d)]
    {
      pipes := pipes + [NewPipe(width, height, d)];
    }

    /** triggerGameOver: the transition to GameOver, which reads no clock. */
    method TriggerGameOver()
      requires Valid()
      modifies this`mode, this`pipeTimer, this`pipes, this`score, this`readyTime, this`lastTimestamp, bird
      ensures Valid()
      ensures mode == GameOver
      ensures pipes == old(pipes) && score == old(score) && pipeTimer == old(pipeTimer)
      ensures readyTime == old(readyTime) && lastTimestamp == old(lastTimestamp) && unchanged(bird)
    {
      SetMode(GameOver, lastTimestamp);
    }

    /** animateBackground: every star and dust streak drifts and wraps, in
        place; no particle is added or removed. starRoll(l, k) and dustRoll(k)
        are the draws a particle uses if it wraps. */
    method AnimateBackground(delta: real, starRoll: (nat, nat) -> Roll, dustRoll: nat -> Roll)
      modifies this`stars, this`dust
      ensures Drifted(old(stars), old(dust), delta, starRoll, dustRoll)
    {
      var l := 0;
      while l < |stars|
        invariant 0 <= l <= |stars| == |old(stars)|
        invariant forall m :: 0 <= m < |stars| ==> |stars[m]| == |old(stars)[m]|
        invariant forall m, k :: 0 <= m < l && 0 <= k < |stars[m]| ==>
                    stars[m][k] == MoveStar(old(stars)[m][k], delta, width, height, starRoll(m, k))
        invariant forall m :: l <= m < |stars| ==> stars[m] == old(stars)[m]
        invariant dust == old(dust)
      {
        var layer := stars[l];
        var k := 0;
        while k < |layer|
          invariant 0 <= k <= |layer| == |old(stars)[l]|
          invariant forall j :: 0 <= j < k ==> layer[j] == MoveStar(old(stars)[l][j], delta, width, height, starRoll(l, j))
          invariant forall j :: k <= j < |layer| ==> layer[j] == old(stars)[l][j]
        {
          layer := layer[k := MoveStar(layer[k], delta, width, height, starRoll(l, k))];
          k := k + 1;
        }
        stars := stars[l := layer];
        l := l + 1;
      }

      var k := 0;
      while k < |dust|
        invariant 0 <= k <= |dust| == |old(dust)|
        invariant forall j :: 0 <= j < k ==> dust[j] == MoveDust(old(dust)[j], delta, width, height, dustRoll(j))
        invariant forall j :: k <= j < |dust| ==> dust[j] == old(dust)[j]
        invariant |stars| == |old(stars)|
        invariant forall m :: 0 <= m < |stars| ==> |stars[m]| == |old(stars)[m]|
        invariant forall m, j :: 0 <= m < |stars| && 0 <= j < |stars[m]| ==>
                    stars[m][j] == MoveStar(old(stars)[m][j], delta, width, height, starRoll(m, j))
      {
        dust := dust[k := MoveDust(dust[k], delta, width, height, dustRoll(k))];
        k := k + 1;
      }
    }

    /** The spawn timer of update: it advances by the time step, and on
        reaching the interval it restarts from zero and one pipe is spawned. */
    method TickPipeTimer(delta: real, spawn: SpawnDraw)
      modifies this`pipeTimer, this`pipes
      ensures pipeTimer < PipeInterval
      ensures old(pipeTimer) + delta >= PipeInterval ==>
                pipeTimer == 0.0 && pipes == old(pipes) + [NewPipe(width, height, spawn)]
      ensures old(pipeTimer) + delta < PipeInterval ==>
                pipeTimer == old(pipeTimer) + delta && pipes == old(pipes)
    {
      pipeTimer := pipeTimer + delta;
      if pipeTimer >= PipeInterval {
        pipeTimer := 0.0;
        SpawnPipe(spawn);
      }
    }

    /** The bird part of update: gravity with the capped fall speed, the
        move, the angle, then the ceiling clamp. The returned box is the one
        before the clamp, which the collision tests use. */
    method MoveBird(delta: real) returns (box: Box)
      modifies bird
      ensures box == BirdBox(bird.x, Travel(old(bird.y), Fall(old(bird.velocity), delta), delta))
      ensures bird.x == old(bird.x) && bird.flapTime == old(bird.flapTime)
      ensures bird.rotation == Tilt(Fall(old(bird.velocity), delta))
      ensures box.top < CeilingTop ==>
                bird.y == CeilingTop + BirdHeight / 2.0 && bird.velocity == 0.0
      ensures box.top >= CeilingTop ==>
                bird.y == Travel(old(bird.y), Fall(old(bird.velocity), delta), delta)
                && bird.velocity == Fall(old(bird.velocity), delta)
      ensures bird.velocity <= MaxFallVelocity && MinTilt <= bird.rotation <= MaxTilt
      ensures bird.y - BirdHeight / 2.0 >= CeilingTop
    {
      bird.velocity := Fall(bird.velocity, delta);
      bird.y := Travel(bird.y, bird.velocity, delta);
      bird.rotation := Tilt(bird.velocity);

      box := BirdBox(bird.x, bird.y);
      if box.top < CeilingTop {
        bird.y := CeilingTop + BirdHeight / 2.0;
        bird.velocity := 0.0;
      }
    }

    /** The pipe pass of update: in list order each pipe moves, scores once
        when the bird has passed it (raising the best score with the score),
        and is checked for a collision with the bird's box. Reports whether any pipe was
        hit. */
    method MovePipes(delta: real, box: Box) returns (hit: bool)
      requires score <= best
      modifies this`pipes, this`score, this`best
      ensures pipes == AdvanceAll(old(pipes), delta, box.left)
      ensures score == old(score) + NewlyScored(old(pipes), delta, box.left)
      ensures best == (if score > old(best) then score else old(best))
      ensures hit <==> exists j :: 0 <= j < |pipes| && Collides(pipes[j], box)
    {
      hit := false;
      var i := 0;
      while i < |pipes|
        invariant 0 <= i <= |pipes| == |old(pipes)|
        invariant forall j :: 0 <= j < i ==> pipes[j] == Advance(old(pipes)[j], delta, box.left)
        invariant forall j :: i <= j < |pipes| ==> pipes[j] == old(pipes)[j]
        invariant score == old(score) + NewlyScored(old(pipes)[..i], delta, box.left)
        invariant best == (if score > old(best) then score else old(best))
        invariant hit <==> exists j :: 0 <= j < i && Collides(pipes[j], box)
      {
        var pipe := pipes[i];
        pipe := pipe.(x := pipe.x - PipeSpeed * delta);
        if !pipe.scored && pipe.x + pipe.width < box.left {
          score := score + 1;
          pipe := pipe.(scored := true);
          if score > best {
            best := score;
          }
        }
        if box.right > pipe.x && box.left < pipe.x + pipe.width {
          if box.top < pipe.gapTop || box.bottom > pipe.gapBottom {
            hit := true;
          }
        }
        assert old(pipes)[..i + 1][..i] == old(pipes)[..i];
        pipes := pipes[i := pipe];
        i := i + 1;
      }
      assert old(pipes)[..i] == old(pipes);
    }

    /** The state after a Playing frame of time step delta, from the pipes,
        score, best score, spawn timer and bird position and velocity it
        started with. The bird's box is taken after the move and before the
        ceiling clamp. */
    ghost predicate Played(pipes0: seq<Pipe>, score0: nat, best0: nat, timer0: real,
                           x0: real, y0: real, v0: real, delta: real, spawn: SpawnDraw)
      reads this, bird
    {
      var timer := timer0 + delta;
      var v := Fall(v0, delta);
      && pipeTimer == (if timer >= PipeInterval then 0.0 else timer)
      && bird.rotation == Tilt(v)
      && PlayedFrom(Queued(pipes0, timer, width, height, spawn), BirdBox(x0, Travel(y0, v, delta)),
                    y0, v, score0, best0, delta)
    }

    /** The bird, score, pipes and mode after a Playing frame, from the pipe
        list after the spawn step, the bird's box before the ceiling clamp,
        its earlier height, its new velocity and the earlier scores. */
    ghost predicate PlayedFrom(queued: seq<Pipe>, box: Box, y0: real, v: real,
                               score0: nat, best0: nat, delta: real)
      reads this, bird
    {
      var moved := AdvanceAll(queued, delta, box.left);
      && (if box.top < CeilingTop
          then bird.y == CeilingTop + BirdHeight / 2.0 && bird.velocity == 0.0
          else bird.y == Travel(y0, v, delta) && bird.velocity == v)
      && score == score0 + NewlyScored(queued, delta, box.left)
      && best == (if score > best0 then score else best0)
      && pipes == KeepOnScreen(moved)
      && (mode == GameOver <==>
            (exists i :: 0 <= i < |moved| && Collides(moved[i], box)) || box.bottom >= GroundLine(height))
      && (mode != GameOver ==> mode == Playing)
    }

    /** The Playing part of update: the spawn timer, then the rest of the
        frame. */
    method Play(delta: real, spawn: SpawnDraw)
      requires Valid() && mode == Playing
      modifies this`mode, this`pipeTimer, this`pipes, this`score, this`best, this`readyTime,
               this`lastTimestamp, bird
      ensures Valid()
      ensures Played(old(pipes), old(score), old(best), old(pipeTimer),
                     old(bird.x), old(bird.y), old(bird.velocity), delta, spawn)
      ensures readyTime == old(readyTime) && lastTimestamp == old(lastTimestamp)
      ensures bird.x == old(bird.x) && bird.flapTime == old(bird.flapTime)
      ensures best >= old(best)
      ensures |pipes| <= |old(pipes)| + 1
    {
      ghost var pipes0, timer := pipes, pipeTimer + delta;
      TickPipeTimer(delta, spawn);
      assert pipes == Queued(pipes0, timer, width, height, spawn);
      assert forall p :: p in pipes ==> WellFormed(p);
      Fly(delta);
    }

    /** The rest of a Playing frame: the bird moves, the pipes move and score,
        the pipes that left the screen are dropped, and any hit of a pipe or
        of the ground ends the round. */
    method Fly(delta: real)
      requires Valid() && mode == Playing
      modifies this`mode, this`pipeTimer, this`pipes, this`score, this`best, this`readyTime,
               this`lastTimestamp, bird
      ensures Valid()
      ensures PlayedFrom(old(pipes), BirdBox(old(bird.x), Travel(old(bird.y), Fall(old(bird.velocity), delta), delta)),
                         old(bird.y), Fall(old(bird.velocity), delta), old(score), old(best), delta)
      ensures pipeTimer == old(pipeTimer) && readyTime == old(readyTime) && lastTimestamp == old(lastTimestamp)
      ensures bird.x == old(bird.x) && bird.flapTime == old(bird.flapTime)
      ensures bird.rotation == Tilt(Fall(old(bird.velocity), delta))
      ensures best >= old(best)
      ensures |pipes| <= |old(pipes)|
    {
      ghost var pipes0, score0, best0 := pipes, score, best;
      ghost var x0, y0, v := bird.x, bird.y, Fall(bird.velocity, delta);
      var box := MoveBird(delta);
      var hitGround := MovePipes(delta, box);
      ghost var moved := pipes;
      assert forall j :: 0 <= j < |moved| ==> WellFormed(moved[j]);
      pipes := KeepOnScreen(pipes);

      if box.bottom >= GroundLine(height) {
        hitGround := true;
      }
      if hitGround {
        TriggerGameOver();
      }
      assert PlayedFrom(pipes0, box, y0, v, score0, best0, delta);
    }

    /** update: one frame. The background always drifts; in Ready the bird
        hovers; in Playing the spawn timer, gravity, the ceiling clamp, pipe
        motion and scoring, the collision tests, the cleanup filter and at most
        one transition to GameOver happen in that order; in GameOver nothing
        else changes. */
    method Update(delta: real, sine: Sine, spawn: SpawnDraw,
                  starRoll: (nat, nat) -> Roll, dustRoll: nat -> Roll)
      requires Valid()
      modifies this`mode, this`pipeTimer, this`pipes, this`score, this`best, this`readyTime,
               this`lastTimestamp, this`stars, this`dust, bird
      ensures Valid()
      ensures Drifted(old(stars), old(dust), delta, starRoll, dustRoll)
      ensures readyTime == old(readyTime) && lastTimestamp == old(lastTimestamp)
      ensures bird.x == old(bird.x) && bird.flapTime == old(bird.flapTime)
      ensures best >= old(best)
      ensures |pipes| <= |old(pipes)| + 1
      ensures old(mode) != Playing ==>
                && mode == old(mode) && pipes == old(pipes) && score == old(score)
                && best == old(best) && pipeTimer == old(pipeTimer) && bird.velocity == old(bird.velocity)
      ensures old(mode) == Ready ==> bird.y == HoverY(height, sine) && bird.rotation == HoverTilt(sine)
      ensures old(mode) == GameOver ==> bird.y == old(bird.y) && bird.rotation == old(bird.rotation)
      ensures old(mode) == Playing ==>
                Played(old(pipes), old(score), old(best), old(pipeTimer),
                       old(bird.x), old(bird.y), old(bird.velocity), delta, spawn)
    {
      if mode == Ready {
        bird.y := HoverY(height, sine);
        bird.rotation := HoverTilt(sine);
      }

      AnimateBackground(delta, starRoll, dustRoll);

      if mode != Playing {
        return;
      }

      Play(delta, spawn);
    }

    /** The frame loop's state step: the time step is the clamped time since
        the previous frame, the frame's timestamp becomes the previous one,
        and one update runs with that step. */
    method Frame(timestamp: real, sine: Sine, spawn: SpawnDraw,
                 starRoll: (nat, nat) -> Roll, dustRoll: nat -> Roll)
      requires Valid()
      modifies this`mode, this`pipeTimer, this`pipes, this`score, this`best, this`readyTime,
               this`lastTimestamp, this`stars, this`dust, bird
      ensures Valid()
      ensures lastTimestamp == timestamp
      ensures Drifted(old(stars), old(dust), FrameDelta(timestamp, old(lastTimestamp)), starRoll, dustRoll)
      ensures readyTime == old(readyTime)
      ensures bird.x == old(bird.x) && bird.flapTime == old(bird.flapTime)
      ensures best >= old(best)
      ensures |pipes| <= |old(pipes)| + 1
      ensures old(mode) != Playing ==>
                && mode == old(mode) && pipes == old(pipes) && score == old(score)
                && best == old(best) && pipeTimer == old(pipeTimer) && bird.velocity == old(bird.velocity)
      ensures old(mode) == Ready ==> bird.y == HoverY(height, sine) && bird.rotation == HoverTilt(sine)
      ensures old(mode) == GameOver ==> bird.y == old(bird.y) && bird.rotation == old(bird.rotation)
      ensures old(mode) == Playing ==>
                Played(old(pipes), old(score), old(best), old(pipeTimer),
                       old(bird.x), old(bird.y), old(bird.velocity),
                       FrameDelta(timestamp, old(lastTimestamp)), spawn)
    {
      var delta := FrameDelta(timestamp, lastTimestamp);
      lastTimestamp := timestamp;
      Update(delta, sine, spawn, starRoll, dustRoll);
    }

    /** The window regaining focus, and the first animation frame, restart
        the frame clock. */
    method RestartClock(now: real)
      modifies this`lastTimestamp
      ensures lastTimestamp == now
    {
      lastTimestamp := now;
    }
  }
}
