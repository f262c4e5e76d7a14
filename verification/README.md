# Laddoo catcher: a verified model of the game-state core

The game is a browser game. A catcher at the bottom of a 375 × 667 playfield moves
left and right. Laddoos (worth a point) and hazards (a ball, poop, a hanger or boots,
each costing a point while the score is positive) fall from the top. The player must
reach a score of ten within a 15-second round.

This project models the game-state core of the `LaddooGame` class in Dafny:

- what each animation frame's `update()` does to the game's fields;
- what the one-second timer does;
- the session transitions around a round (start, end, reset and restart).

Drawing and scheduling are left out.

Modules:

- `Geometry` (`geometry.dfy`) defines rectangles and the game's overlap test
  `IsColliding`, which is four strict inequalities. Lemmas prove it is symmetric, that
  a rectangle overlaps itself exactly when it has positive area, and that, for boxes of
  positive area, it holds exactly when the two open boxes share an interior point.
- `Entities` (`entities.dfy`) covers the falling entities:
  - the game constants;
  - how a laddoo or a hazard is spawned from the random draws of a frame (position,
    speed and hazard kind);
  - one frame of falling, and the "still on the field" test.
- `Passes` (`passes.dfy`) covers the two list passes every frame runs back to front:
  - the fall pass moves every entity down by its own speed and splices out those below
    the field;
  - the collision pass splices out the entities overlapping the catcher.

  `Select(s, p)` is the reference meaning of a pass. `Dropped(s, p)` counts what it
  removes. `FallSurvivors` and `CatchSurvivors` prove, in the game's terms, which
  entities survive, in what form and in what order. The step lemmas carry the loops'
  invariants one position at a time.
- `LaddooGame` (`game.dfy`) holds the session as a class `Game`, with the fields the
  source updates in place:
  - `gameRunning`, `score`, `timeLeft`, the catcher, the two entity lists and the input
    state;
  - `phase`, which stands for the screen shown (start, countdown, game, win or lose);
  - `timerActive`, which stands for the live one-second interval;
  - `charImage` and `showMinusOne`, the catch cues.

  Each core method of the session is a method of `Game`, and the loops keep the source's reverse
  `for` with in-place splicing. For movement, the list passes and the catch check, the
  `ensures` ties the new state to a specification function of the old state:
  `Steered`/`DraggedAnchor` for movement, `Select` for the list updates, `Resolve` for
  the catch check. The round-control methods state their new fields outright. The session invariant
  `Valid()` is preserved throughout:
  - the score is never negative;
  - a running round has its timer on, time left and a score below the target;
  - the catcher keeps its size and stays on the field.
- `Scenarios` (`scenarios.dfy`) drives concrete rounds through the methods. Each one
  states what the session looks like afterwards: the score, a list, the phase or the
  timer, as the case needs.

Random draws (`Math.random()`) are inputs in [0, 1), bundled per frame in `Draws`. The
keyboard, touch and on-screen button state are fields of `Game`, as the left-out event
handlers leave them. Coordinates and speeds are `real`.

### Behaviour as written

The model follows `script.js`. Where the code behaves differently from what one might
expect of the game, the model keeps the code's behaviour:

- **A hazard at score 0 stays.** The hazard pass is guarded once, by `score > 0`, before
  its loop (script.js:554). At score 0 an overlapping hazard is neither penalised nor
  removed, and stays in the list (`Resolve`, `Scenarios.HazardAtZeroStays`).
- **The frame goes on after a win.** Reaching the target inside the laddoo loop calls
  `endGame()` without a `break` (script.js:547-549). The remaining laddoos are still
  caught, and the hazard pass still runs. A round can therefore be won while the final
  score is below 10 (`Scenarios.WinThenHazard`).
- **The clock never produces a win.** A running round is always below the target,
  because the target ends it at once. So when the timer ends a round, the result is
  always a loss (`Game.TimerTick`'s last `ensures`). The win branch of `endGame()`
  (script.js:307-308), shown by `Scenarios.EndAtTarget`, is reached only through a catch
  (`Scenarios.TenthLaddooWins`).
- **Spawn position.** Entities spawn at `y = -30`, not at minus their height. The
  horizontal spawn stretch is `[-60, 385)`: it uses the base width and is half-open.
- **Restart goes through the countdown.** `restartGame()` clears the session and then
  calls `startGame()`, which shows the countdown (`phase == CountingDown`). It does not
  start a round directly.
- **Reset keeps the cues.** `resetGame()` does not touch the catcher picture or the "-1"
  indicator.

## Model

| member | source | states |
|---|---|---|
| `Geometry.IsColliding` | script.js:589-594 | the overlap test: the four strict inequalities between the two rectangles' edges, on both axes |
| `Geometry.CollidingSymmetric` | script.js:589-594 | the overlap test gives the same answer with its arguments swapped |
| `Geometry.CollidingWithSelf` | script.js:589-594 | a rectangle overlaps itself exactly when its width and height are both positive |
| `Geometry.CollidingIffCommonInteriorPoint` | script.js:589-594 | for boxes with positive area, the four strict inequalities hold exactly when some point lies strictly inside both boxes |
| `Entities.SpawnX` | script.js:478 | the spawn position of a draw r: -60 + r × 445, which lies in [-60, 385) for every draw in [0, 1) |
| `Entities.NewLaddoo` | script.js:475-486 | a spawned laddoo is a laddoo at y = -30, 50 × 50, with x the spawn position `SpawnX` of its draw, in [-60, 385), and speed 2.5 + 2 × its draw, in [2.5, 4.5) |
| `Entities.HazardKind` | script.js:490 | the drawn type is one of ball, poop, hanger, boots |
| `Entities.HazardKindQuarters` | script.js:490 | kind number i of the list is chosen exactly by the draws in [i/4, (i+1)/4) |
| `Entities.NewBadObject` | script.js:488-500 | a spawned hazard has the hazard kind `HazardKind` of its draw, y = -30, 50 × 50, x the spawn position `SpawnX` of its draw, in [-60, 385), and speed 2.5 + 2 × its draw, in [2.5, 4.5) |
| `Entities.SpawnXCoversStretch` | script.js:478 | every x of the spawn stretch comes from exactly one draw in [0, 1) |
| `Entities.Moved` | script.js:505 | one frame of falling (also line 517 for hazards): the entity moves down by exactly its own speed, and nothing else about it changes |
| `Entities.OnField` | script.js:508 | (also line 520 for hazards) an entity stays in play unless its top edge is below y = 667 |
| `Passes.Select` | script.js:502-586 | what a pass leaves: the visited entries the pass keeps, in order; never longer than the list |
| `Passes.Dropped` | script.js:526-586 | how many entries a pass removes: the list's length minus the length of what `Select` keeps |
| `Passes.SelectKeepsExactlyInOrder` | script.js:502-586 | a pass keeps exactly the visited entries it does not drop, as the pass left them, at strictly increasing original positions |
| `Passes.FallSurvivors` | script.js:502-524 | after the fall pass, the survivors are exactly the entities with y + speed <= 667, each moved down by its own speed, in their original order |
| `Passes.CatchSurvivors` | script.js:526-586 | after a collision pass, the entries left are exactly those not overlapping the catcher, unchanged and in order, and the number removed is the number overlapping |
| `LaddooGame.LeftKeyHeld` | script.js:441 | the left step applies when `ArrowLeft`, `a` or `A` is recorded as down |
| `LaddooGame.RightKeyHeld` | script.js:444 | the right step applies when `ArrowRight`, `d` or `D` is recorded as down |
| `LaddooGame.Clamp` | script.js:472 | `max(lo, min(hi, v))` lies in [lo, hi], is v when v already lies there, and is the nearer bound otherwise |
| `LaddooGame.DragMove` | script.js:449-461 | the drag moves the catcher exactly when a finger is down and more than 2 units from the anchor |
| `LaddooGame.DragTowardsFinger` | script.js:449-461 | a drag step goes towards the finger, is 0.8 times the gap, and never overshoots |
| `LaddooGame.DragNarrowsGap` | script.js:455-459 | with the anchor moved by half the step, the remaining gap is 0.6 times the old gap |
| `LaddooGame.Steer` | script.js:441-469 | the unclamped displacement of a frame: minus the catcher's speed for a left key and for the left button, plus it for a right key and for the right button, plus the drag step |
| `LaddooGame.LaddooSpawn` | script.js:475-486 | a frame spawns no laddoo or exactly one, and one exactly when the chance draw is below 0.015 |
| `LaddooGame.HazardSpawn` | script.js:488-500 | a frame spawns no hazard or exactly one, and one exactly when the chance draw is below 0.015 |
| `LaddooGame.AfterHazards` | script.js:553-562 | k hazards from a score s leave s - min(k, s): a point each, never below zero |
| `LaddooGame.Resolve` | script.js:526-587 | laddoos overlapping the catcher are removed and the score rises by their number; the hazards are only touched when the score is then positive, in which case overlapping hazards are removed and each costs a point down to 0; at score 0 hazards and score stay |
| `LaddooGame.Game.constructor` | script.js:2-98 | the session starts idle, with score 0, 15 seconds, empty lists, no timer, no input and the catcher centred at x = 157.5, y = 587, 60 × 60, speed 5 |
| `LaddooGame.Game.StartGame` | script.js:209-212 | starting shows the countdown and changes nothing else |
| `LaddooGame.Game.StartActualGame` | script.js:257-279 | the round starts running with score 0, 15 seconds and empty lists, and the interval is scheduled |
| `LaddooGame.Game.TimerTick` | script.js:285-292 | the clock drops by exactly 1; the round ends iff it reaches 0 or below, and that end is always a loss; otherwise nothing else changes |
| `LaddooGame.Game.EndGame` | script.js:303-312 | the round stops, the interval is cancelled, and the result is a win exactly when score >= 10 |
| `LaddooGame.Game.ResetGame` | script.js:352-383 | the session is idle, not running, score 0, 15 seconds, empty lists, no interval, the catcher re-centred and otherwise unchanged |
| `LaddooGame.Game.RestartGame` | script.js:385-406 | the same cleared fields as a reset, then the countdown is shown |
| `LaddooGame.Game.Steered` | script.js:439-473 | where the frame's input takes the catcher: only its x changes, to the steered position clamped to [0, 315] |
| `LaddooGame.Game.DraggedAnchor` | script.js:449-461 | where the drag leaves the anchor: unchanged without a drag step, otherwise 0.6 of the old gap from the finger |
| `LaddooGame.Game.HandleMovement` | script.js:439-473 | the catcher moves by the summed key, drag and button steps, clamped to [0, 315], and nothing else about it changes; the anchor moves by half the drag step; the session invariant holds |
| `LaddooGame.Game.SpawnLaddoos` | script.js:475-486 | the list gains exactly the laddoos of `LaddooSpawn` at its end, so one new laddoo exactly when the chance draw is below the rate; existing entries are untouched |
| `LaddooGame.Game.SpawnBadObjects` | script.js:488-500 | the list gains exactly the hazards of `HazardSpawn` at its end, so one new hazard exactly when the chance draw is below the rate; existing entries are untouched |
| `LaddooGame.Game.UpdateLaddoos` | script.js:502-512 | the laddoo list becomes the fall pass of the old list, and only the list changes |
| `LaddooGame.Game.UpdateBadObjects` | script.js:514-524 | the hazard list becomes the fall pass of the old list, and only the list changes |
| `LaddooGame.Game.Update` | script.js:408-437 | a frame of a stopped session changes nothing; a frame of a running one moves the catcher, then the lists and score become the catch check applied to the spawned-and-fallen lists, and the round is won exactly when the catches reach the target |
| `LaddooGame.Game.CheckCollisions` | script.js:526-587 | the lists and score become those of `Resolve`; a hazard hit raises "-1"; a catch or hit switches the catcher picture to `charClosed`; the round ends as a win exactly when a catch reaches the target, and otherwise the round state is untouched |
| `LaddooGame.Game.MouthTimeout` | script.js:541-544 | when the mouth timeout fires, the catcher picture is the resting one again |
| `LaddooGame.Game.MinusOneTimeout` | script.js:570-573 | when the "-1" timeout fires, the indicator is hidden |
| `LaddooGame.Game.CatchLaddoos` | script.js:528-551 | every overlapping laddoo is spliced out and scores; once a catch reaches the target, the round has ended as a win and the loop has gone on |
| `LaddooGame.Game.HitHazards` | script.js:553-586 | every overlapping hazard is spliced out and costs a point down to 0, raising the "-1" cue |
| `Scenarios.CatchOneLaddoo` | script.js:526-551 | a laddoo overlapping the centred catcher is caught: score 1, list empty, round still running |
| `Scenarios.HazardAtZeroStays` | script.js:553-554 | at score 0 an overlapping hazard costs nothing and stays in the list |
| `Scenarios.HazardCostsAPoint` | script.js:553-586 | at score 3 an overlapping hazard is removed, the score becomes 2 and "-1" shows |
| `Scenarios.TimeRunsOutShort` | script.js:285-292 | the last tick at score 9 loses the round and stops the interval |
| `Scenarios.EndAtTarget` | script.js:303-312 | ending the round at score 10 records a win |
| `Scenarios.TenthLaddooWins` | script.js:547-549 | the tenth laddoo wins at once with 7 seconds left and cancels the interval |
| `Scenarios.WinThenHazard` | script.js:526-587 | a laddoo and a hazard caught in the same frame at score 9: the round is won with score 9 |
| `Scenarios.DistantLaddooStays` | script.js:528-532 | a laddoo clear of the catcher stays and scores nothing |
| `Scenarios.ResetTwice` | script.js:352-383 | a second reset leaves exactly the state the first one left |

## Left out

- Drawing and the page are not modelled:
  - the canvas, `resizeCanvas`, `draw*` and the timer bar;
  - screen toggling, which `phase` stands for.

  None of them changes the game fields, except the size overwrite described below.
- The renderer's side effect is not modelled: `drawLaddoo`/`drawBadObject` overwrite an
  entity's width and height while drawing. Entity sizes stay those given at spawn.
- Scheduling is not modelled:
  - the three one-second countdown timeouts, which are represented by `StartGame` followed
    later by `StartActualGame`;
  - the `requestAnimationFrame` loop, which is represented by calls to `Update`;
  - the one-second `setInterval`, which is represented by `timerActive` and calls to
    `TimerTick`.
- Two intervals at once cannot be represented. A second `startTimer` while one interval
  is live would leave two running in the source, because the first handle is
  overwritten; the boolean `timerActive` cannot express that.
- When the cue timeouts fire is not modelled: the 100 ms mouth timeout and the 500 ms
  "-1" timeout. What they do is modelled, by `MouthTimeout` and `MinusOneTimeout`, and a
  client calls them whenever it chooses. Because of this, the model does not capture
  that a new catch cancels and re-arms a pending timeout.
- Game.Update does not restate the cue fields (`charImage`, `showMinusOne`) for a
  running frame. `Game.CheckCollisions` states them, and it is the only step of a frame
  that changes them.
- The "-1" fade and scale animation is not modelled (`minusOneAlpha`, `minusOneScale`,
  `updateMinusOneAnimation` and the unused `minusOneAnimations` helpers). It is cosmetic
  floating-point state.
- The decorative end-screen animations are not modelled: the crying and trophy drops
  that `update()` advances before its `gameRunning` guard, and the confetti, which is a
  foreign library call.
- Asset loading, event-listener wiring and raw input events are not modelled. Their
  outcome is the key map, touch and button fields of `Game`, which the model takes as
  given. `showGameOver` is not modelled either: it only calls `resetGame`.
- Floating-point rounding is not modelled. Positions and speeds are exact reals.
- The order in which random numbers are drawn is not modelled. The source draws the
  position, speed and kind of an entity only when its chance draw succeeds. The model
  takes all seven draws of a frame as independent inputs and ignores the unused ones.
  This produces the same states but does not model the order of the random sequence.
