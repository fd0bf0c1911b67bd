# blockens: the tick state machine and the sprite layer, in Dafny

blockens is a grid-based snake game drawn with Metal. This project models two
parts of it:

- **The game loop** of the view controller (module `GameLoop`). It covers the
  game status (Running, Paused, Stopped), the tick wait in milliseconds, and the
  single-shot tick timer. It also covers `scheduleTick`, `tick`, `resetGame`,
  `resetBackgroundSprites` and `handleKeyEvent`, plus the weighted choice of a
  background sprite kind.
- **The CPU side of the sprite layer renderer** (module `SpriteLayer`). It
  covers the parallel `sprites` and `gridPositions` arrays, the info record and
  its vertex count, and the texture coordinates that `update` rebuilds and
  pushes. It also covers the buffers `loadAssets` creates and the commands
  `render` issues.

`GameLoop` has two levels. Pure transition functions on a `Game` value
(`Scheduled`, `Ticked`, `AfterReset`, `AfterKey`) state what each operation
does. The class `GameViewController` has the source's fields, and each of its
methods is proved to move `State()` exactly as the matching function says.
Lemmas about the functions state the properties. One example is the timer
discipline `Settled`: a running game always has a tick pending, and a stopped
game never has one. A reset establishes it and every tick and key keeps it.

Collaborators whose code is not in the modelled files are handled as follows:

- **Snake, score, stars, sprite layer, timer.** Every call the controller
  makes on them is appended to a ghost effect log (`Effect`), in call order.
  That includes the `oneEighty` queries, the timer's `invalidate()` and the
  scheduling of a new timer. The one exception is the
  `backgroundSpriteLayer.renderer()` lookup at GameViewController.swift:109,
  which only fetches a handle and is not logged.
- **Snake answers.** What the snake reports is an input: `onFood`, `moveOk`,
  and `oneEighty` (a function of the direction asked about).
- **Random numbers.** The draws of `getRandomNum(100)` are an input, `roll`.
- **`log_e`.** The natural logarithm is an uninterpreted field of `Config`.
  `MAX_TICK_MILLISECONDS` and `NUM_BACKGROUND_SPRITES` are `Config` fields too,
  because their values are not in the modelled files.
- **NSTimer.** The timer is `Option<Timer>`. A `Timer` has an interval in
  seconds (the wait divided by 1000) and a validity flag. "Armed" means a timer
  exists and is still valid.

In the renderer:

- `sprite.gridPosition()` is a function fixed when the renderer is made.
- `sprite.update()` is a function passed to each `Update` call, because the
  sprites' animation state is hidden.
- A GPU buffer is a record holding its label, the count it was created with,
  and the data last pushed into it.

The code puts no floor on the tick wait: `tick` just subtracts `log_e(wait)`
(GameViewController.swift:215). The model follows the code and claims no floor
and no strict decrease.

## Model

| member | source | states |
|---|---|---|
| `GameLoop.GetBackgroundSprite` | blockens/src/GameViewController.swift:95-106 | Rolls 1–10 give Bush, 11–25 Crater and 26–50 Rocks; every other integer gives Grass. Each direction is an if-and-only-if, so the bands are disjoint and cover every roll. |
| `GameLoop.BackgroundSpriteWeightsFromOne` | blockens/src/GameViewController.swift:95-106 | For every kind, exactly `Weight(kind)` of the 100 rolls 1–100 give it: 10 Bush, 15 Crater, 25 Rocks and 50 Grass. |
| `GameLoop.BackgroundSpriteWeightsFromZero` | blockens/src/GameViewController.swift:95-106 | The same ten-fifteen-twenty-five-fifty split holds for rolls 0–99, so it does not depend on where the random range starts. |
| `GameLoop.BackgroundSpriteEffects` | blockens/src/GameViewController.swift:108-115 | A background reset clears the layer, then adds one sprite per draw with kind `GetBackgroundSprite(roll(i))`, in draw order, then pushes the grid positions. |
| `GameLoop.Scheduled` | blockens/src/GameViewController.swift:193-203 | Only the timer and the log can change. Nothing is armed unless the status is Running, and a valid timer is never replaced. Otherwise exactly one timer is armed, for the current wait in seconds, and the log gains that one scheduling call. |
| `GameLoop.Ticked` | blockens/src/GameViewController.swift:206-225 | The previous timer is never left valid. If not Running, only the invalidation happens. If Running, the log gains exactly: the invalidation (when a timer exists), eatFoodIfOnFood, eat-or-move, move, and, last and only without a collision, the new timer's scheduling. The wait becomes `wait - log_e(wait)` on food and stays the same otherwise. On collision the status is Stopped with nothing armed; otherwise it stays Running with a fresh timer for the new wait. |
| `GameLoop.AfterReset` | blockens/src/GameViewController.swift:126-134 | After a reset the status is Running, the wait is the maximum, and a timer is armed. The log gains the background reset, then score, snake and stars resets, then a scheduling call unless a timer was still valid. A valid timer is kept, with its old interval. |
| `GameLoop.AfterKey` | blockens/src/GameViewController.swift:136-191 | A direction key first asks oneEighty of the opposite direction. On a reversal nothing else happens. Otherwise it sets the heading and then ticks. S does nothing while Running, resets while Stopped, and while Paused sets Running and schedules a tick. P always pauses. N always resets. Other keys change nothing. |
| `GameLoop.ResetSettles` | blockens/src/GameViewController.swift:126-134 | A reset leaves the game in the `Settled` timer discipline. |
| `GameLoop.TickKeepsSettled` | blockens/src/GameViewController.swift:206-225 | A tick preserves `Settled`. |
| `GameLoop.KeyKeepsSettled` | blockens/src/GameViewController.swift:136-191 | Every key event preserves `Settled`. |
| `GameLoop.CollisionStopsTicking` | blockens/src/GameViewController.swift:193-196 | After a colliding move the game is Stopped with nothing armed, and scheduling a tick then changes nothing. |
| `GameLoop.DirectionTickCancelsPendingTimer` | blockens/src/GameViewController.swift:136-164 | A direction key in a running game with a pending timer logs, in order: the oneEighty query, the new heading, the old timer's invalidation, the eat, score and move calls, and only then the new timer's scheduling. So one tick replaces the pending one rather than adding a second. |
| `GameLoop.StoppedUnderMoveKeys` | blockens/src/GameViewController.swift:136-165 | In a stopped game, a direction key or an unmapped key keeps it Stopped with nothing armed and the same wait. The old log is kept as a prefix, and nothing it adds is a score call, a move or a new timer. |
| `GameLoop.PauseThenResumeRevivesStoppedGame` | blockens/src/GameViewController.swift:166-182 | P then S brings a stopped game back to Running with a timer armed. The wait is unchanged and no reset happens: the log gains only the scheduling call. |
| `GameLoop.EatingSpeedsUp` | blockens/src/GameViewController.swift:213-224 | From a reset, each of three eating ticks applies `w - log_e(w)` once more and re-arms a timer for the new wait. A fourth, non-eating tick keeps the wait and re-arms for it. |
| `GameLoop.GameViewController.constructor` | blockens/src/GameViewController.swift:19-22 | The controller starts Running, with the maximum wait, no timer and no calls made. |
| `GameLoop.GameViewController.ScheduleTick` | blockens/src/GameViewController.swift:193-203 | The new state is `Scheduled` of the old one. |
| `GameLoop.GameViewController.Tick` | blockens/src/GameViewController.swift:206-225 | The new state is `Ticked` of the old one. |
| `GameLoop.GameViewController.ResetBackgroundSprites` | blockens/src/GameViewController.swift:108-115 | The loop appends `BackgroundSpriteEffects` to the log and changes nothing else. |
| `GameLoop.GameViewController.ResetGame` | blockens/src/GameViewController.swift:126-134 | The new state is `AfterReset` of the old one. |
| `GameLoop.GameViewController.HandleKeyEvent` | blockens/src/GameViewController.swift:136-191 | The new state is `AfterKey` of the old one. |
| `SpriteLayer.SpriteLayerRenderer.constructor` | blockens/src/SpriteLayer/SpriteLayerRenderer.swift:35-44 | A new layer has no sprites, no grid positions, no texture coordinates, no buffers, and a vertex count of 0. Its grid width, height and view ratio come from the setup. |
| `SpriteLayer.SpriteLayerRenderer.AddSprite` | blockens/src/SpriteLayer/SpriteLayerRenderer.swift:47-51 | The sprite and its grid position are appended at the same index, and earlier entries are unchanged. The vertex count grows by one rectangle, so it stays the sprite count times `verticesPerRectangle`. |
| `SpriteLayer.SpriteLayerRenderer.Update` | blockens/src/SpriteLayer/SpriteLayerRenderer.swift:70-78 | The texture coordinates become the in-order concatenation of every sprite's `update()` result. They are pushed into the texture-coordinate buffer only when it exists. Sprites, grid positions and info are unchanged. |
| `SpriteLayer.SpriteLayerRenderer.LoadAssets` | blockens/src/SpriteLayer/SpriteLayerRenderer.swift:53-68 | Requires the texture coordinates to exist (an update came first). Creates the four buffers: the grid buffer sized to the grid positions and the coordinate buffer sized to the earlier coordinates. Finishes with an update, which pushes the fresh coordinates. |
| `SpriteLayer.SpriteLayerRenderer.Render` | blockens/src/SpriteLayer/SpriteLayerRenderer.swift:80-91 | Sets the pipeline state. Binds the vertex, texture-coordinate, grid-position and info buffers at indices 0, 1, 2 and 3, in that order. Sets the texture and draws exactly `info.numVertices` vertices, which is one rectangle per sprite. |
| `SpriteLayer.ConcatAppend` | blockens/src/SpriteLayer/SpriteLayerRenderer.swift:71-74 | The coordinates of two runs of sprites are the coordinates of the first run followed by those of the second. |
| `SpriteLayer.ConcatAt` | blockens/src/SpriteLayer/SpriteLayerRenderer.swift:71-74 | Sprite i's coordinates sit right after those of sprites 0..i-1 and right before those of the rest. |
| `SpriteLayer.ConcatUniformLength` | blockens/src/SpriteLayer/SpriteLayerRenderer.swift:71-74 | When every sprite reports k coordinates, n sprites give n·k of them. |

## Left out

- `drawInMTKView` and the in-flight semaphore: the GPU completion signal is concurrent, and the model is sequential.
- `viewDidLoad`, device and command-queue creation, the plain-view fallback, `setupFrameInfo` and `setupBackgroundSpriteLayer`: Metal and Cocoa setup and floating-point view geometry.
- The numeric value of `log_e`: it is floating point, so it stays uninterpreted. Nothing is claimed about a floor or about strict decrease.
- Real NSTimer timing: a timer firing is modelled as a call to `Tick`. The timer keeps only its interval and a validity flag.
- The contents of the movement map and the key-code constants: they are not part of this model, so keys are the abstract `Key` type.
- The snake, score and stars, the sprite subclasses, `getRandomNum`, and the sprite layer's `clear` and `updateSprites`: their code is not part of this model. Their calls are logged and their answers are inputs.
- The background-sprite loop records its `addSprite` calls in the log. It does not drive a `SpriteLayerRenderer`, whose `clear` is not part of this model.
- In the renderer: the pipeline state, the texture, the rectangle vertices, and the bytes written into the info buffer. Line 63 copies the buffer handle rather than the info record; this is not modelled.
- `SpriteLayer.SpriteLayerRenderer.AddSprite`: requires that the vertex count stays within `Int32`, since Swift's `+=` traps on overflow. The trap itself is not modelled.
- The `print` calls (GameViewController.swift:220, SpriteLayerRenderer.swift:66): console output only, not modelled.
- Floats are exact `real`s: there is no Float32 rounding in the tick wait, the view ratio or the texture coordinates.
