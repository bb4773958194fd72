# Flappy Nebula simulation, modelled in Dafny

This project models the simulation core of Flappy Nebula, a browser game in one
script (`game.js`). A bird falls under gravity and flaps upward. Pipe pairs
scroll in from the right, and each one scores a point once the bird has passed
it. Hitting a pipe column or the ground ends the round. Behind the play field
drift three nebula glows, three parallax layers of stars and a band of dust
streaks near the ground.

The model covers:

- the `CONFIG` constants and the `state` and `bird` records;
- the ready / playing / game-over state machine;
- the per-frame `update`, the pipe spawner and the background drift;
- the background generators and the time-step clamp of the frame loop.

The browser's inputs become parameters:

- each `Math.random()` draw is a `Fraction` in [0, 1);
- each `Math.sin` value is a `Sine` in [-1, 1];
- each `performance.now()` reading or frame timestamp is a `real`;
- the viewport size is an `Extent` (a non-negative real).

A generator that draws per particle takes a function from the particle's index
to its draws. A wrap-around takes a function from the particle's index to the
draws it uses if it wraps.

Modules:

- `Config`: the constants, the bounded input types, `Math.round`.
- `Physics`: gravity with the capped fall speed, the display angle, the ready-screen hover, the bird's box, the ground line, the frame time step.
- `Pipes`: the pipe value, its per-frame motion and one-time scoring, the collision test, the off-screen filter.
- `Spawner`: `spawnPipe`'s gap size and gap placement.
- `Background`: nebulas, star and dust generation, and their per-frame drift and wrap-around.
- `Game`:
  - the `Bird` and `Game` classes, whose fields the operations update in place;
  - the mode machine (`SetMode`, `StartGame`, `HandlePrimaryAction`, `Flap`, `TriggerGameOver`);
  - `Update` and the frame step.

`Update` is one function in the source. The model splits it into phases, each
with its own contract: `TickPipeTimer`, `MoveBird`, `MovePipes`, `Play` and
`Fly`. The pipe pass is the source's `forEach` loop, kept as a `while` loop.
`Game.Valid` is the invariant every operation keeps:

- `best >= score`;
- the spawn timer is below the interval;
- the ready screen has no pipes, no score and a zero timer;
- every pipe has the spawner's geometry;
- the fall speed and the angle are bounded;
- every star layer has at least 12 stars, and there are at least 18 dust streaks.

Behaviour of game.js the model keeps as written:

- Only the random part of the gap size scales with viewport height (game.js:180-183). The gap never drops below 180 px on a short viewport.
- With under 1 px of slack, the range is raised to 1 and a draw is still used (game.js:186), so nothing divides by zero, no spawn is skipped, and the gap top lies in [86, 87) (`Spawner.NewPipe`).
- The bird's angle is derived from the velocity after the fall-speed cap (game.js:217-223).
- Five 0.1 s frames from rest end at 820 px/s, not the 900 of uncapped integration, because the cap applies every frame (`Physics.FallFromRest`).
- A stored best score that is not numeric is read as `NaN` (game.js:35); a missing one as 0. The model takes the stored best as a natural number.
- The focus handler and `setMode("playing")` set the previous timestamp from `performance.now()`. The next frame timestamp can be earlier, so the time step can be negative. `Update` does not assume a non-negative step. As a result the spawn timer is only known to be below the interval, not to be non-negative.

## Model

| member | source | states |
|---|---|---|
| Config.Round | game.js:95 | Math.round gives the integer within half a unit of its argument, halves rounded up |
| Physics.BirdHome | game.js:119 | the bird's start column is 32% of the width, capped at 320 px, and lies in [0, 320] |
| Physics.Fall | game.js:217-218 | one frame of gravity never exceeds the 820 px/s fall cap, never exceeds the uncapped value, and equals one of the two |
| Physics.Tilt | game.js:220-223 | the angle lies in [-0.5, 0.7]; it is velocity / 820 * 1.1 whenever that value lies in the bounds, -0.5 below them and 0.7 above them |
| Physics.TiltMonotone | game.js:220-223 | a faster fall never gives a smaller angle |
| Physics.HoverY | game.js:198-201 | the ready-screen height stays within 22 px and within 4% of the height around 45% of the viewport |
| Physics.HoverTilt | game.js:202 | the ready-screen angle stays within ±0.1, inside the flying angle bounds |
| Physics.BirdBox | game.js:225-250 | the bird's box is 58 by 42 px and centred on the bird |
| Physics.GroundLine | game.js:261 | the ground line is at 88% of the height, inside the viewport |
| Physics.FrameDelta | game.js:548 | the time step never exceeds 0.05 s; below 50 ms it is the elapsed time in seconds, from 50 ms on it is 0.05; it is non-negative when time moves forward |
| Physics.FallFromRest | game.js:217-218 | four 0.1 s frames from rest reach 720 px/s and the fifth is capped at 820 px/s |
| Physics.FlapThenCoast | game.js:174-176 | one 0.1 s frame after a flap leaves the bird rising at 340 px/s |
| Pipes.Advance | game.js:236-245 | a frame moves the pipe left by 250 px/s times the step, keeps its geometry and spawner shape, and marks it scored iff it already was or its right edge is now behind the bird's left edge |
| Pipes.Gain | game.js:237-239 | a pipe adds 1 point exactly when it was not scored and becomes scored, never more than 1 and nothing once scored |
| Pipes.AdvanceAll | game.js:235-236 | every pipe of the list is advanced, in order, and none is added or dropped |
| Pipes.NewlyScored | game.js:235-245 | a frame adds at most one point per pipe |
| Pipes.ScoredCount | game.js:239 | at most every pipe is scored |
| Pipes.ScoringMarksPipes | game.js:235-245 | the points a frame adds equal the number of pipes it newly marks scored |
| Pipes.OnlyUnscoredPipesScore | game.js:237-239 | the points a frame adds never exceed the pipes not yet scored, so a pipe scores at most once |
| Pipes.CollidesOnlyOutsideGap | game.js:247-256 | with horizontal overlap, a pipe is hit iff the bird's box is not wholly inside the gap |
| Pipes.KeepOnScreen | game.js:259 | the filter keeps exactly the pipes whose right edge is beyond -200 and never lengthens the list |
| Pipes.KeepOnScreenAppend | game.js:259 | filtering distributes over concatenation, so the kept pipes stay in their relative order |
| Pipes.KeepOnScreenAll | game.js:259 | when every pipe is on screen the filter returns the list unchanged |
| Spawner.GapSize | game.js:180-183 | the gap size lies in [180, 260) and exceeds 180 by at most 80 * height / 720 |
| Spawner.PlaceGap | game.js:186 | the gap top lies in [minTop, minTop + range) |
| Spawner.NewPipe | game.js:179-194 | a spawned pipe starts 110 px beyond the right edge, unscored, 110 px wide, its gap top at least 86 px, its gap the drawn size in [180, 260); with at least 1 px of slack its gap ends above the bottom margin, otherwise its top is within 1 px of the top margin |
| Background.Portion | game.js:97 | a draw times a width lies in [0, width], below it when the width is positive |
| Background.Jitter | game.js:100 | a base speed jittered by ±20% lies in [0.8, 1.2) times the base |
| Background.LowBand | game.js:111 | a dust height lies in the lower 35% of the viewport |
| Background.NebulaInside | game.js:79-87 | each of the three nebulas has its centre inside the viewport, has radius at least 0.6 of the larger side, and alpha in (0, 1) |
| Background.NebulaProgression | game.js:79-87 | later nebulas are no smaller, higher in hue and fainter |
| Background.Nebulas | game.js:77-90 | generateNebulas yields three nebulas, each with its centre inside the viewport, of radius at least 0.6 of the larger side, ordered by rising hue and falling alpha |
| Background.NebulaStyleIndependentOfViewport | game.js:77-90 | a resize changes no nebula's hue, alpha or distortion |
| Background.StarCount | game.js:94-95 | a layer has at least 12 stars and at least its area share rounded half up; it has exactly 12 when that share is below 11.5 |
| Background.NewStar | game.js:96-103 | a new star lies in the viewport and drifts at the layer's speed ±20% |
| Background.GenerateStars | game.js:92-105 | one list per layer, each of exactly StarCount (at least 12) stars, all in the layer's band |
| Background.MoveStar | game.js:279-284 | a star keeps its speed; once past x = -20 it reappears in [width + 20, width + 60) at a height in the viewport, otherwise it only drifts; it never ends left of -20 |
| Background.DustCount | game.js:108 | there are at least 18 dust streaks and at least the width share rounded half up; exactly 18 when that share is below 17.5 |
| Background.NewDust | game.js:109-115 | a new streak lies in the lower 35% band, 40 to 100 px long, drifting at 60 to 140 px/s |
| Background.GenerateDust | game.js:107-116 | exactly DustCount (at least 18) streaks, all in the dust band |
| Background.MoveDust | game.js:288-294 | a streak keeps its length and speed; once wholly past the left edge it reappears within 20% of a width beyond the right edge in the dust band, otherwise it only drifts |
| Game.Bird.constructor | game.js:45-53 | the bird record starts at the origin, still, level, with flap time 0 |
| Game.Game.constructor | game.js:29-53 | at load the game is Ready with no pipes, no score, the stored best, a fresh background for the viewport and the bird at its start position with flap time 0, and the invariant holds |
| Game.Game.ResetBirdPosition | game.js:118-123 | the bird returns to its start column at 45% of the height, still and level |
| Game.Game.Resize | game.js:55-69 | a resize takes the new viewport, regenerates nebulas, stars and dust for it, resets the bird, keeps the round, and keeps the invariant |
| Game.Game.SetMode | game.js:125-151 | entering Ready or Playing clears score, timer and pipes; Ready also notes the time and resets the bird; Playing restarts the frame clock; GameOver changes the mode only; the invariant is kept |
| Game.Game.StartGame | game.js:158-161 | afterwards the mode is Playing; a round under way is untouched, otherwise a cleared round starts, without moving the bird |
| Game.Game.Flap | game.js:174-177 | the velocity becomes exactly -520 whatever it was, the flap time is noted, nothing else moves |
| Game.Game.HandlePrimaryAction | game.js:163-172 | from Ready a cleared round starts with the frame clock at setMode's reading, then a flap at flap's own later reading, the ready time kept; while Playing the bird flaps and the round, frame clock and ready time are kept; from GameOver the game returns to a cleared Ready screen with the bird reset, the frame clock and flap time kept |
| Game.Game.SpawnPipe | game.js:179-194 | exactly one new pipe is appended to the list |
| Game.Game.TriggerGameOver | game.js:271-273 | the mode becomes GameOver and nothing else changes |
| Game.Game.AnimateBackground | game.js:275-295 | every star and dust streak takes one frame of drift and wrap-around, in place, and no particle is added or removed |
| Game.Game.TickPipeTimer | game.js:211-215 | the timer advances by the step and restarts from 0 with exactly one spawn on reaching 1.75 s, so it stays below 1.75 s |
| Game.Game.MoveBird | game.js:217-231 | the velocity falls and is capped, the bird moves, the angle follows the velocity, and a bird above the ceiling is put back at it with zero velocity; the returned box is the pre-clamp one; afterwards the bird's top is below the ceiling line |
| Game.Game.MovePipes | game.js:233-257 | every pipe is advanced in order, the score rises by the newly scored pipes, the best score follows the score, and a hit is reported iff some moved pipe collides with the pre-clamp box |
| Game.Game.Fly | game.js:217-268 | after the spawn step: bird, pipe pass, cleanup filter, ground test, and GameOver iff a pipe or the ground was hit, otherwise still Playing |
| Game.Game.Play | game.js:211-268 | a Playing frame: the spawn step followed by the bird, pipe pass, cleanup and collision outcome; best never decreases, at most one pipe is added, the invariant is kept |
| Game.Game.Update | game.js:196-269 | the background always drifts; Ready only hovers the bird; GameOver changes nothing else; Playing is the full frame; best never decreases, at most one pipe is added, and the invariant is kept |
| Game.Game.Frame | game.js:547-550 | the frame's timestamp becomes the previous one and one update runs with the clamped time step: the background drifts by that step, Ready hovers, GameOver keeps the round, Playing is the full frame of that step; best never decreases and the invariant is kept |
| Game.Game.RestartClock | game.js:573-581 | the previous-frame timestamp becomes the given time |

## Left out

- Rendering is not modelled: `render`, `drawBackground`, `drawPipes`, `drawBird`, `drawForeground` (game.js:297-545) only draw.
- DOM work is not modelled: the overlay, result panel and button label updates in `setMode`, and `updateScoreboard`.
- Canvas sizing, the pixel ratio and `setTransform` in `resizeCanvas` are not modelled.
- `requestAnimationFrame` scheduling is left out. `Frame` is one call of `loop`.
- The event listeners are left out. The key-code filter and the click-target test become plain calls of `HandlePrimaryAction` and `StartGame`.
- `localStorage` is left out. Reading the stored best becomes a natural-number parameter of the constructor. The write at game.js:242 is modelled as the `best` field update only.
- `Math.random()`, `Math.sin` and `performance.now()` are parameters. In the ready screen, `sin(elapsed * 2.8)` arrives as one `Sine` value; `readyTime` is kept as state but is not used.
- Star size, star alpha, star hue and dust alpha are not modelled. They are cosmetic random fields with no invariant beyond their bands.
- The nebula count is the constant 3, as in the source.
- Numbers are exact reals, not IEEE doubles. Rounding error and `NaN` are not modelled.
