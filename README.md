# eternity_background in Dafny

eternity_background is a pygame screensaver. It shows three kinds of sprite
drifting upwards over a dark screen:

- falling-up rectangles with a glow (`BgRect`);
- glowing particles (`Particle`);
- long dark bars crossing the screen diagonally (`UpperEntity`).

Each frame draws every sprite, advances it by a frame-time factor `dt`, and
culls the sprites that have left the screen. The frame then handles input
and spawn-timer events and recomputes `dt` with a smoothing counter
(`FpsCounter`).

This project models the game logic, not the rendering. It covers:

- `geometry.dfy`: the parts of pygame's `Rect` and `Vector2` that the game
  relies on. Float coordinates are `real`. A rectangle has integer corners.
  Float offsets and centres are truncated toward zero on their way into a
  rectangle, as pygame does (`Geometry.Trunc`).
- `constants.dfy`: the screen size and the truncated screen diagonal.
- `events.dfy`: the events one frame delivers. A spawn-timer event carries
  the random draws its spawn function makes.
- `game_engine.dfy`: the engine module.
  - The quit test and the geometry of `rect_surf`.
  - `FpsCounter`: a class, with its step as the value-level function
    `Tick`. Each statement of `get_dt` that can raise becomes an error
    result: the two divisions and the `pop(0)` from the window.
  - `Entity`, with `Physics` folded into its constructor. The game's
    classes do not extend it: `UpperEntity.Update` takes the same step as
    `Entity.move`, which `UpperEntity.update` calls, and `BgRect.update`
    moves by its own velocity without calling `move`.
  - The engine's decaying `Particle`: a class, with its step as
    `ParticleStep`. The class-wide `gravity` and `radius_dec` that `set`
    assigns become a `ParticleSettings` value passed to `Update`.
- `entities.dfy`: the game's `UpperEntity`, `BgRect` and `Particle` classes
  and the rectangles of their glow images.
- `game.dfy`: the `Game` class.
  - Its three sprite groups, as sequences.
  - The per-group pass of `draw()`, with `check_border` and the bar-removal
    test.
  - `check_events()`, the three spawn functions, and one `game_loop` pass
    (`Step`).
  - `run_game()`, over a finite sequence of frames.

Two points of the model deserve a note.

- **The counter's clock.** The counter starts its last-call time at 0 and
  does not guard against a zero frame time.
  - Two calls at the same instant divide by zero (`GameEngine.FpsError`).
  - The first call measures the whole clock reading as one frame.
    `GameEngine.FirstCallOvershoots` proves that, with the game's counter,
    this first `dt` exceeds 1.
- **The draws are not constrained.** The random ranges that `generate_rect`
  and `generate_particle` draw from are not imposed on the draws. Every
  spawn property below holds for any draw.

## Model

| member | source | states |
|---|---|---|
| Geometry.Trunc | eternity_background/scripts/game_engine/__init__.py:69-70 | a float offset given to `move_ip` becomes the integer toward zero: within one pixel below a non-negative value, within one pixel above a negative one |
| Geometry.SurfaceRect | eternity_background/scripts/entity.py:99-101 | `get_rect(center=pos)` keeps the surface's size and puts the centre pixel at the truncated position |
| Geometry.MoveShiftsEdges | eternity_background/scripts/game_engine/__init__.py:69-70 | a move keeps the size and shifts the centre and the bottom edge by the truncated offset |
| Geometry.SubPixelMoveIsLost | eternity_background/scripts/entity.py:35-38 | an offset under one pixel in each direction leaves the rectangle unchanged, because it is truncated, not accumulated |
| Geometry.CentredRectContains | eternity_background/scripts/entity.py:73-76 | of two rectangles centred on one pixel, the one at least as large in both directions contains the other |
| Geometry.WithCenterPlacesCentre | eternity_background/scripts/game.py:89 | assigning `rect.center` keeps the size and puts the centre pixel exactly where asked |
| Geometry.WithMidTopPlacesTop | eternity_background/scripts/game.py:82-83 | `get_rect(midtop=...)` keeps the size, puts the top edge where asked and centres the rectangle horizontally on the given column |
| Constants.ScreenLengthIsTruncatedDiagonal | eternity_background/scripts/constants.py:9 | the 1835 pixels that a rectangle keeps of `SCREEN_LENGTH` are the whole part of the screen diagonal: its square is at most 1600²+900², and the next one is above it |
| GameEngine.QuitEventsAreCloseAndEscape | eternity_background/scripts/game_engine/__init__.py:28-31 | `CheckGameQuit`, the quit test, holds for an event if and only if it is the window close or the escape key pressed |
| GameEngine.RectSurfDrawRect | eternity_background/scripts/game_engine/__init__.py:41-49 | the rectangle that `rect_surf` draws has the input's size, is centred on the double-size surface and lies wholly inside it |
| GameEngine.Tick | eternity_background/scripts/game_engine/__init__.py:158-168 | one `get_dt`: the last time becomes `now` and the window keeps its length, whatever the outcome |
| GameEngine.TickOutcomes | eternity_background/scripts/game_engine/__init__.py:158-168 | the outcomes of `Tick`. The error cases: zero elapsed time exactly when `now` equals the last time; an empty window exactly when time moved and the window is empty; a zero mean exactly when the new window sums to 0. The new rate times the elapsed time is 1. The window drops its oldest sample and appends the new rate. A success returns `dt` with `dt * sum == default_fps * length` and stores it. A failure leaves `dt` as it was |
| GameEngine.TickAll | eternity_background/scripts/game_engine/__init__.py:158-168 | a run of `get_dt` calls keeps the window's length and gives one result per call |
| GameEngine.TickAllSnoc | eternity_background/scripts/game_engine/__init__.py:158-168 | a run of calls extended by one more call ends in `Tick` of the state the run left, and its results gain that call's result |
| GameEngine.WindowKeepsLatestSamples | eternity_background/scripts/game_engine/__init__.py:164-165 | the window is a fixed-length FIFO: after any run of calls that never divides by zero it is the old window followed by every measured rate, minus as many oldest entries as there were calls |
| GameEngine.WindowForgetsSeed | eternity_background/scripts/game_engine/__init__.py:153-165 | after at least `history_length` calls, the window holds exactly the latest measured rates and nothing of its initial fill |
| GameEngine.SteadyTick | eternity_background/scripts/game_engine/__init__.py:163-166 | one call exactly one target-rate frame after the last, against a window full of the target rate, keeps the window and returns `dt == 1` |
| GameEngine.SteadyRateGivesUnitDt | eternity_background/scripts/game_engine/__init__.py:163-166 | calls evenly spaced at the target rate keep such a window unchanged and return `dt == 1` every time |
| GameEngine.FullTargetWindowGivesUnitDt | eternity_background/scripts/game_engine/__init__.py:163-168 | a call that leaves every entry of the window at the target rate returns `dt == 1`, whatever the evicted entry was, because the mean is taken after the append |
| GameEngine.TargetGapsRefillWindow | eternity_background/scripts/game_engine/__init__.py:163-168 | calls one target frame apart append the target rate; starting with `m` trailing entries at the target rate, every call from index `length - 1 - m` on returns `dt == 1` |
| GameEngine.TargetGapsRestoreUnitDt | eternity_background/scripts/game_engine/__init__.py:153-168 | from any nonempty window, calls one target frame apart return `dt == 1` from the call that completes a window of such rates (index `history_length - 1`) on: the recovery after a disturbance such as the first call |
| GameEngine.ForwardTick | eternity_background/scripts/game_engine/__init__.py:160-166 | a call strictly later than the last, against a nonempty window of positive rates, succeeds with a positive `dt` and keeps the window positive |
| GameEngine.ForwardTimeGivesPositiveDt | eternity_background/scripts/game_engine/__init__.py:160-166 | while the clock strictly increases, every call succeeds with a positive `dt` and the window stays positive |
| GameEngine.FirstCallOvershoots | eternity_background/scripts/game_engine/__init__.py:151-168 | with the game's counter (60 frames per second, ten samples), a first call at any clock reading of one second or more succeeds with `dt > 1` |
| GameEngine.FpsCounter.constructor | eternity_background/scripts/game_engine/__init__.py:151-156 | the window is `history_length` copies of the target rate (empty when the length is not positive); `dt` is 0, `fps` is the target rate and the last time is 0 |
| GameEngine.FpsCounter.GetDt | eternity_background/scripts/game_engine/__init__.py:158-168 | the method's new fields and result are exactly `Tick` of the old fields; the window length is preserved |
| GameEngine.Entity.constructor | eternity_background/scripts/game_engine/__init__.py:54-67 | the rectangle as given; zero velocity and momentum; rotation and air time 0 |
| GameEngine.Entity.Move | eternity_background/scripts/game_engine/__init__.py:69-70 | the rectangle moves by the velocity scaled by `dt`; nothing else changes |
| GameEngine.ParticleStepsDecay | eternity_background/scripts/game_engine/__init__.py:103-109 | after `n` updates (`ParticleStep`, the base `update()`, applied `n` times) the radius has lost `n` decrements, the vertical speed has gained `n` gravities and the horizontal speed is unchanged |
| GameEngine.ParticleStepsClosedForm | eternity_background/scripts/game_engine/__init__.py:103-105 | after `n` updates the position is on the discrete parabola `p + n*v + n(n-1)/2 * g` |
| GameEngine.ParticleKilledExactly | eternity_background/scripts/game_engine/__init__.py:107-109 | with a non-negative decrement, a particle is killed after `n` updates if and only if it was already killed, or `n > 0` and `n` decrements have used up its radius |
| GameEngine.TenthUpdateKills | eternity_background/scripts/game_engine/__init__.py:103-109 | a particle of radius 10 shrinking by 1 is alive after nine updates and killed by the tenth |
| GameEngine.Particle.constructor | eternity_background/scripts/game_engine/__init__.py:97-101 | position, velocity and radius as given; not killed; zero momentum |
| GameEngine.Particle.Update | eternity_background/scripts/game_engine/__init__.py:103-109 | the new state is `ParticleStep` of the old one under the class-wide settings; momentum unchanged |
| Entities.LightingWidth | eternity_background/scripts/entity.py:31-33 | the glow stroke is three times a positive core stroke, and 21 for a filled core. It is always a positive outline and wider than the core's stroke |
| Entities.BgRectGlowContainsRect | eternity_background/scripts/entity.py:60-62 | a rectangle's glow (`image_rect`, built by `BgRectImageRect`) is twice its width and height, shares its centre and contains it |
| Entities.ParticleHaloRect | eternity_background/scripts/entity.py:99-101 | a particle's glow rectangle is a square of twice the glow radius that the particle stores at construction (three times its radius, so six radii across), centred on the truncated position |
| Entities.HaloEnclosesCore | eternity_background/scripts/entity.py:73-76 | the glow image of radius `3r` encloses the core image of radius `r` drawn on the same centre |
| Entities.BarStepAtUnitDt | eternity_background/scripts/game.py:87-88 | at `dt == 1` a bar's velocity (-3, -1.9) moves its rectangle by exactly (-3, -1) |
| Entities.UpperEntity.constructor | eternity_background/scripts/entity.py:9-12 | the rectangle and velocity as given; the entity's rotation stays 0, because the rotation argument only turns the image |
| Entities.UpperEntity.Update | eternity_background/scripts/entity.py:14-15 | the rectangle moves by the velocity times `dt`; velocity and rotation unchanged |
| Entities.BgRect.constructor | eternity_background/scripts/entity.py:25-33 | rectangle, velocity, spin, rotation and stroke as given; the glow stroke is `LightingWidth(width)` |
| Entities.BgRect.Update | eternity_background/scripts/entity.py:35-38 | the rectangle moves by the velocity times `dt` (truncated); the rotation accumulates the spin times `dt` without wrapping |
| Entities.Particle.constructor | eternity_background/scripts/entity.py:73-76 | position, velocity and radius as given; the glow radius is three times the radius |
| Entities.Particle.Update | eternity_background/scripts/entity.py:78-79 | the position moves by the velocity times `dt`. The radius and velocity are unchanged: no decay and no gravity |
| Game.CheckBorder | eternity_background/scripts/game.py:118-121 | a sprite culled by `check_border` has a glow that no longer collides with the screen, and a glow whose top is on or below the screen's top edge is never culled |
| Game.UpperEntityGone | eternity_background/scripts/game.py:113-116 | a bar that the bar pass removes lies wholly left of the screen or wholly above it (or has a zero side) |
| Game.CheckBorderAtTopEdge | eternity_background/scripts/game.py:118-121 | a glow whose bottom is one pixel above the screen is culled; one whose bottom is on the top edge is kept |
| Game.UpperSpawnIsKept | eternity_background/scripts/game.py:86-89 | a new bar (`UpperSpawnRect`) is 50 by 1835 pixels and centred at (1650, 950). It misses the screen entirely, yet the removal test keeps it |
| Game.SpawnedBarSurvivesFirstPass | eternity_background/scripts/game.py:109-116 | a new bar moved by any `dt` in [0, 550) is still kept by the removal test |
| Game.RectSpawnIsKept | eternity_background/scripts/game.py:65-74 | a new rectangle (`RectSpawnRect`) starts below the screen, and its glow neither overlaps the screen nor is culled by `check_border` |
| Game.ParticleSpawnIsKept | eternity_background/scripts/game.py:76-84 | a new particle's glow, around the position `ParticleSpawnPos` gives it, has its top edge on the screen's bottom edge and is centred on the drawn column, so `check_border` keeps it |
| Game.Game.constructor | eternity_background/scripts/game.py:12-34 | empty groups, `running` false (the source creates `running` only in `run_game`), a counter for 60 frames per second over ten samples in its initial state, and the screen rectangle 1600 by 900 |
| Game.Game.DrawRects | eternity_background/scripts/game.py:99-102 | every rectangle is advanced exactly once by the current `dt`. Afterwards the group holds exactly the old rectangles whose glow `check_border` keeps |
| Game.Game.DrawParticles | eternity_background/scripts/game.py:104-107 | every particle moves exactly once by its velocity times `dt`, with radius and velocity kept. Afterwards the group holds exactly the old particles whose glow `check_border` keeps |
| Game.Game.DrawUpperEntities | eternity_background/scripts/game.py:109-116 | every bar moves exactly once by its velocity times `dt`. Afterwards the group holds exactly the old bars that are not both off the screen and centred above and left of it |
| Game.Game.GenerateRect | eternity_background/scripts/game.py:65-74 | exactly one fresh rectangle is appended. It has the drawn size and column, sits just below the screen and has velocity (0, y_vel) with the drawn spin, rotation and stroke |
| Game.Game.GenerateParticle | eternity_background/scripts/game.py:76-84 | exactly one fresh particle is appended, with velocity (0, y_vel), the drawn radius, and its position re-centred on its glow placed with its top at the screen's bottom |
| Game.Game.GenerateUpperEntity | eternity_background/scripts/game.py:86-89 | exactly one fresh bar is appended, with velocity (-3, -1.9) and the rectangle `UpperSpawnRect()` |
| Game.Game.HandleEvent | eternity_background/scripts/game.py:53-60 | a quit event clears `running`. A timer event appends one fresh sprite of its kind, built from its draws. Every other group is unchanged |
| Game.Game.CheckEvents | eternity_background/scripts/game.py:51-60 | `running` is cleared exactly when some event asks to quit. Each group gains one fresh sprite per timer event of its kind, in event order. Existing members stay in place |
| Game.Game.Draw | eternity_background/scripts/game.py:96-116 | the three group passes in order: every sprite is advanced once by the same `dt`, and each group keeps exactly the sprites its cull test keeps |
| Game.Game.Step | eternity_background/scripts/game.py:40-49 | one loop pass in the source's order: draw, then events, then `get_dt`. Every sprite alive at its start moves once by the previous `dt`. Each group then holds exactly the old sprites that its cull test keeps, in a prefix, followed by the sprites this frame's timer events spawned, one per event, in event order, fresh and still exactly as their spawn function placed them. `running` is cleared exactly when the frame's events ask to quit. The counter advances by exactly one `Tick` at the frame's time |
| Game.Game.LoopPass | eternity_background/scripts/game.py:40-49 | the part of one pass that the loop relies on: `running` as in `Step`, every sprite old or fresh, and one `Tick` of the counter at the frame's time |
| Game.CounterAfterIsRun | eternity_background/scripts/game.py:40-49 | the counter's state and results after the first `n` frames, one `get_dt` per frame, are those of the run of `Tick` over those frames' clock readings (`TickAll`) |
| Game.Game.RunGame | eternity_background/scripts/game.py:36-49 | the loop plays frames until one asks to quit (it is played, and no earlier one asks), until `get_dt` raises, or until the input ends with `running` still set. The counter ends in the state of one `get_dt` per played frame; every call but the last succeeds, and the loop ends as `Crashed` exactly when the last call failed, with that call's error |

## Left out

- Rendering is not modelled: surfaces, `fill`, `blit`, rotation of images, `display.update` and `clock.tick(60)`. `draw_screen` is therefore not modelled.
- Colours are not modelled: `set_colors`, `Particle.set`'s colour argument, and the colour-key calls.
- Asset and surface helpers are not modelled as drawing: `get_path`, `load_image`, `SpriteSheet`, `circle_surf`, `get_surf`, `Particle.get_image`, `Entity.draw_rect`, `Entity.from_image` and `Entity.rotated_image`. Where the game measures a surface they return, its size is modelled: `Entities.ParticleCoreRect` and `Entities.ParticleHaloRect` for `get_image` (built by `get_surf`), and `GameEngine.RectSurfArea` for `rect_surf`.
- Rectangle coordinates are unbounded integers, while pygame stores them as C `int`s, so coordinate overflow is not modelled.
- `time.time()` is a parameter: each frame carries the clock reading that its `get_dt` call sees.
- `pygame.event.get()` is replaced by the frame's event list.
- `random` is replaced by draws carried in the timer events; the timers' periods (200, 300 and 1500 ms) are not modelled.
- The loop stops when the supplied frames run out (`InputExhausted`), which the endless source loop never does.
- An exception from `get_dt` ends the model's loop as `Crashed`, where the source lets it propagate.
- GameEngine.Tick: computes the rate as `1 / elapsed` over the reals. The source computes `1000 / (elapsed * 1000)` in floating point, so float rounding is not modelled.
- Geometry.Trunc: models pygame's conversion of a float coordinate to a pixel as truncation toward zero. pygame's own C code is not part of this model.
- Sprite groups are sequences without duplicates. `kill()` in the game is removal from the group. Groups are iterated over a snapshot, as pygame iterates a copy. The order of the remaining sprites is kept.
- The engine's `Particle` marks itself killed. It belongs to no group in the model, because the game never adds one: the game's `Particle` overrides `update` and never calls the decaying one.
- `Physics` has no class of its own: its two zero vectors are set by the constructors of `Entity` and the engine's `Particle`.
