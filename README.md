# Flappy-bird frame simulation in Dafny

A model of the simulation core of a small pygame side-scroller (`game.py`): a bird
at a fixed column moves up and down under the arrow keys while pairs of pipe
rectangles scroll in from the right; passing pipes raises the score and the
difficulty, touching a pipe or leaving the screen ends the game.

The source keeps its state in module globals and runs it from a nested loop. Here
those globals are the fields of one object, `Game.Session`, whose methods are the
loop's steps (`Reset`, `HandleEvents`, `MoveBird`, `SpawnIfDue`, `MovePipes`,
`UpdateScore`, `Frame`, `Turn`). Each method is proved against a pure step function
on a snapshot of the globals (`Simulation.World`), and the properties of the game
are proved as lemmas about those functions:

- `numeric.dfy` — Python's `int()` on floats (truncation) and `max`.
- `geometry.dfy` — screen constants, rectangles, `create_pipe`.
- `collision.dfy` — the collision loop and the bounds check.
- `controls.dfy` — keyboard events and the velocity they set.
- `pipefield.dfy` — the filter-then-move comprehension.
- `difficulty.dfy` — the scoring loop and the score, multiplier, spawn interval and gap it updates.
- `simulation.dfy` — `reset_game` and one frame as pure steps, in the source's order, with frame-level lemmas.
- `game.dfy` — the `Session` class.

Score, multiplier and spawn interval are `real`; `int(...)` of a positive real is
its floor. Clock readings, `randint`'s sample and the answer given on the
game-over screen are parameters.

The model follows the code where it differs from what one might assume:

- Pipes are filtered on their position before the move (`x > -70`), then moved, so a pipe can sit at `x <= -70` for one frame.
- Scoring runs after the collision and bounds checks, on the moved pipes.
- Scoring is per rectangle: a pair adds 1.0 to the score, 0.06 to the multiplier and two factors of 0.97 to the spawn interval. Ten pairs give a multiplier of 1.6, not 1.3.
- The gap is `max(100, int(130 / m))`, truncated, not rounded.
- No clamping happens at spawn time. `randint` simply never sees an empty range, because the gap stays within [100, 130].
- A QUIT event does not stop the current frame; the loop ends after it.

## Model

| member | source | states |
|---|---|---|
| `Geometry.CreatePipe` | game.py:41-45 | both rectangles at x = 800 and 70 wide; the top one hangs from the ceiling and is h tall; the bottom one starts exactly `gap` below it and ends exactly at 400; both are at least 50 tall |
| `Collision.FindCollision` | game.py:115-116 | the loop over the pipes finds a hit iff some pipe collides with the bird rectangle |
| `Collision.BoundsWindow` | game.py:126 | the bounds check trips iff the bird's top is below 0 or above 370; the pipes take no part |
| `Collision.InsideGapIsSafe` | game.py:116 | a bird wholly inside a pair's gap touches neither segment, wherever the pair has scrolled; resting on the bottom segment's top edge is no collision |
| `Controls.Velocity` | game.py:94-101 | the velocity after the events is the old one, 0, or ±6·m, and stays the old one when no arrow key is pressed or released |
| `Controls.LastSteerWins` | game.py:91-101 | within one frame the last arrow press or release decides the velocity |
| `PipeField.Kept` | game.py:114 | the filter yields no more pipes than it got, each one from the input and on screen |
| `PipeField.KeptAppend` | game.py:114 | the filter commutes with concatenation: pipes keep their relative order |
| `PipeField.KeptExactly` | game.py:114 | the filter keeps every pipe with pre-move x > -70, as often as it occurs, and drops every other |
| `PipeField.Shifted` | game.py:114 | `move(-d, 0)` shifts every x left by d and leaves y, width and height unchanged |
| `PipeField.Stride` | game.py:114 | the shift `int(pipe_speed * m)` is non-negative, at most `pipe_speed * m`, and at least `pipe_speed` when m ≥ 1 |
| `PipeField.Advance` | game.py:114 | the advance step never lengthens the list |
| `PipeField.AdvanceAppend` | game.py:114 | the advance step treats pipes one by one, in order |
| `PipeField.AdvanceOne` | game.py:114 | a single pipe survives iff its pre-move x > -70, and is then moved by the stride |
| `PipeField.SpawnedPairMovesAtOnce` | game.py:110-114 | a pair spawned this frame is moved in the same frame and ends up after the older pipes |
| `Difficulty.GapFor` | game.py:149 | the gap is at least 100, and at most 130 while the multiplier is at least 1 |
| `Difficulty.Bump` | game.py:145-149 | scoring one rectangle strictly raises score and multiplier, keeps the counters sane and never lengthens the spawn interval |
| `Difficulty.ScorePass` | game.py:143-149 | the scoring loop marks exactly the rectangles left of the bird with non-zero width (width := 0), leaves every other rectangle as it was, and never lowers the multiplier |
| `Difficulty.ScorePassSnoc` | game.py:143-149 | the loop taking one more rectangle appends its marked copy, bumps the counters iff it qualifies, and counts it iff it qualifies |
| `Difficulty.ScorePassTally` | game.py:143-149 | one pass adds exactly 0.5 to the score and 0.03 to the multiplier per counted rectangle; multiplier = 1 + 0.06·score, interval in [800, 1500] and gap = max(100, int(130/m)) are kept; the interval never grows |
| `Difficulty.ScorePassFrequency` | game.py:143-148 | after a pass the interval is max(800, old interval · 0.97^n) for n counted rectangles (`Decayed`): the decay compounds |
| `Difficulty.PairFrequency` | game.py:143-148 | a pair passing from an interval of 1500 leaves 1500 · 0.97 · 0.97 |
| `Difficulty.NothingToScore` | game.py:143-146 | a pass over rectangles none of which qualifies changes nothing, so zero-width rectangles are never rescored |
| `Difficulty.ScorePassIdempotent` | game.py:143-146 | a second scoring pass with no movement in between changes nothing: each rectangle is scored at most once |
| `Difficulty.PairScoresTwice` | game.py:143-147 | a pair passing in one frame adds 1.0 to the score and 0.06 to the multiplier |
| `Difficulty.TenPairs` | game.py:145-147 | after ten pairs (score 10) the multiplier is exactly 1.6 |
| `Simulation.Reset` | game.py:70-80 | `reset_game` leaves consistent counters, no pipes, score 0, interval 1500, `last_pipe` at the given time, velocity 0 and the bird at the vertical centre 200, in bounds |
| `Simulation.Steer` | game.py:91-101 | the event loop changes only the velocity, to `Velocity` of the events, and `running`; `running` is cleared iff a QUIT event occurred |
| `Simulation.Fly` | game.py:104 | bird motion changes only `bird_y`, by exactly the velocity |
| `Simulation.Spawn` | game.py:108-111 | a spawn happens iff `now - last_pipe > pipe_frequency`; it appends exactly the pair `create_pipe` builds, keeps the older pipes in order and sets `last_pipe := now`; otherwise nothing changes |
| `Simulation.MovePipes` | game.py:114 | the advance step changes only the pipe list, to `Advance` of the old list, and never lengthens it |
| `Simulation.Score` | game.py:143-149 | the scoring step marks exactly the qualifying rectangles, leaves bird, clock and `running` alone, keeps the counters consistent and is monotone |
| `Simulation.Staged` | game.py:91-114 | the first half of a frame keeps the counters consistent |
| `Simulation.Step` | game.py:91-149 | a frame keeps the counters consistent; it continues only while `running` holds; a QUIT event always ends with `running` cleared; an out-of-bounds bird always ends in a game over (restart or exit), even with no pipes; a hit answered with ESC ends `Exited`; a game over happens only after a hit or leaving the screen; with no hit and in bounds, `running` stays set and the frame ends `Continued` unless a QUIT event occurred, then `Stopped`; out of bounds (and not already exited after a hit) the frame ends `Exited` on ESC and `Restarting` on SPACE; `Restarting` leaves the reset state: no pipes, score 0, bird at 200, `last_pipe` at the restart time |
| `Simulation.StepWithoutGameOver` | game.py:103-149 | with no collision and in bounds, a frame moves the bird by exactly the velocity, scores the advanced pipes, never lowers score or multiplier and never lengthens the spawn interval |
| `Simulation.CollisionThenRestart` | game.py:115-119 | after a collision answered with SPACE the frame ends in exactly the reset state when the bird was in bounds |
| `Simulation.StaleRectAfterRestart` | game.py:105-129 | after a collision restart the bounds check still uses the bird rectangle of line 105, so a second game over follows although the reset bird is in bounds |
| `Simulation.SpawnInFrame` | game.py:108-114 | within a frame, a due spawn sets `last_pipe` and adds the new pair, moved, after the advanced older pipes; otherwise `last_pipe` and the list are only advanced |
| `Simulation.SpawnRangeNonEmpty` | game.py:42 | while consistent the gap lies in [100, 130], so `randint(50, 350 - gap)` has a non-empty range |
| `Game.Session.constructor` | game.py:83-85 | program start leaves the globals in the reset state with `running` set |
| `Game.Session.Reset` | game.py:70-80 | the method's new state is `Simulation.Reset` of the old one |
| `Game.Session.HandleEvents` | game.py:91-101 | the event loop's new state is `Simulation.Steer` of the old one |
| `Game.Session.MoveBird` | game.py:104 | the new state is `Simulation.Fly` of the old one |
| `Game.Session.SpawnIfDue` | game.py:108-111 | the new state is `Simulation.Spawn` of the old one |
| `Game.Session.MovePipes` | game.py:114 | the new state is `Simulation.MovePipes` of the old one |
| `Game.Session.ScoreAt` | game.py:144-149 | one turn of the scoring loop marks the rectangle at i iff it qualifies, bumps the counters exactly then, and touches no other global |
| `Game.Session.UpdateScore` | game.py:143-149 | the scoring loop's new state is `Simulation.Score` of the old one |
| `Game.Session.Frame` | game.py:87-149 | a frame's new state and ending are `Simulation.Step` of the old state, and the counters stay consistent |
| `Game.Session.Turn` | game.py:84-129 | after a restart from the bounds check the outer loop resets again while `running` holds |

## Left out

- Rendering (`set_mode`, `set_caption`, font rendering, `fill`, `blit`, `draw.rect`, `display.flip`): output only, with no state.
- Event polling and `clock.tick` pacing: each frame's events and clock reading are parameters.
- The blocking loop of `game_over_screen`: its outcome is the `Reply` parameter. `PlayAgain` stands for SPACE. `Leave` stands for ESC or closing the window, which exit the process; the model records that as `running` cleared and the `Exited` ending.
- The `else` branches after `game_over_screen()` (game.py:120-123, 130-133): unreachable, because the screen either returns `True` or exits.
- `random.randint`: its sample is the parameter `h`. It must lie in randint's range even on frames that do not spawn; any value in the range will do.
- `pygame.time.get_ticks`: its readings are parameters.
- `Collision.Collides`: `colliderect` lives in pygame. It is assumed here to follow pygame 2's rule: zero-size rectangles collide with nothing, otherwise half-open areas must overlap.
- `Geometry.BirdAt`: pygame turns the float `bird_y` into an integer coordinate. The model assumes the bird rectangle's top is `bird_y` itself.
- Float rounding: reals are exact, so agreement with Python's floats (e.g. an accumulated 1 + n·0.03) is not claimed. Only floors, bounds and monotonicity are.
- The `gravity` constant (game.py:22) is declared but never used, so it does not appear in the model.
- `pygame.quit` and `sys.exit`: modelled only as the terminal `Stopped` and `Exited` endings.
