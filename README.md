# Flappy bird session model

A model of the simulation core of `bird.py`, a small pygame game. The player
picks one of five birds in a menu, then keeps it in the air while pairs of
pipes scroll in from the right. The bird can jump or start a short flight at
constant lift. It scores a point for every pipe pair it passes. The game ends
when it touches the ground or hits a pipe, and the best score is kept.

The model has five modules, one per part of the program:

- `Screen` (`screen.dfy`): the window constants.
- `Geometry` (`geometry.dfy`):
  - integer rectangles as `pygame.Rect` holds them;
  - `Trunc`, which is Python's `int()` on a float (truncation toward zero);
  - `Overlaps`, which is `Rect.colliderect` of pygame 2 (empty rectangles never
    collide, and touching edges do not count).
- `Birds` (`bird.dfy`):
  - the bird's physics state as a value, `Motion`;
  - the pure steps `Step` (one tick of `Bird.update`), `Jump` (`bird_sound`),
    `StartFlight` (`fly`) and `RunStat` (the cosmetic `bird_running` number);
  - lemmas over any sequence of ticks (`Steps`);
  - the `Bird` class, whose methods update its fields in place and are proved
    equal to those steps.
- `Pipes` (`pipe.dfy`): a pipe pair as a value, `PipeVal`, with its scrolling,
  off-screen test, rectangles and collision, plus the `PipePair` class.
- `Field` (`field.dfy`):
  - the per-tick work on the list of pairs, first on values: spawning on a
    timer, scrolling, culling, then the collision-then-score pass that stops
    at the first hit;
  - the same work as methods on the list of `PipePair` objects: `TickField`,
    `AdvancePipes`, `KeepOnscreen`, `ScorePipes`.
- `Session` (`game.dfy`):
  - the `Main`/`Playing`/`Over` state machine (`Playing` is the program's
    `Status.Game`);
  - one tick of `Game.update` as a value-level function `Tick` over a `World`
    snapshot;
  - the event dispatch of `Game.handle_events` as `Respond` over abstract
    events;
  - what events do to the session, as a value: `HandleView` handles one
    event over an `EventView` (loop flag, status, selection, score, pipes,
    spawn timer and the motion of every roster bird), and `HandleViewAll`
    handles a batch in order;
  - the `Game` class, whose methods change the session in place:
    - `Update` is proved equal to `Tick`;
    - `GameOver` is proved equal to `EndGame`;
    - `HandleEvent` and `HandleEvents` are proved equal to `HandleView` and
      `HandleViewAll`;
    - `Reset` states its whole new state, using `Restart` for the bird.

Positions, speeds and time steps are exact reals. Integer screen coordinates
come from `Trunc`. Python's `//` on the gap height is Dafny's `/`, which agrees
with it for a positive divisor.

Where the program's behaviour differs from what one might expect, the model
follows the code:

- Pressing Space while playing only computes the running stat. It does not jump
  (bird.py:197-198). Jumping is the left click.
- A flight ends only once the flight timer is negative (bird.py:53). The timer
  is left below zero, so the invariant the model keeps is
  `isFlying ==> 0 <= flyingTime <= 0.5`.
- Three ticks of 1.5 s from an empty field spawn three pairs, but the oldest
  is already off screen by the third tick and is culled, so two remain
  (`Field.ThreeSpawnsTwoSurvive`).
- `Game.reset` does not touch the flight state, the cooldown or the tilt
  (`Birds.Restart`).

## Model

| member | source | states |
|---|---|---|
| `Geometry.Trunc` | bird.py:109-110 | `int()` on a position truncates toward zero: floor for non-negative values, ceiling for negative ones |
| `Geometry.Overlaps` | bird.py:113-115 | `colliderect`: no rectangle of zero width or height collides; otherwise the spans overlap strictly on both axes, a negative size spanning leftward or upward. Its properties are `OverlapsSymmetric` and `OverlapsIffSharedCell` |
| `Geometry.OverlapsSymmetric` | bird.py:113-115 | collision does not depend on which rectangle asks |
| `Geometry.OverlapsIffSharedCell` | bird.py:113-115 | for rectangles of non-negative size, `colliderect` holds iff the two share a unit cell |
| `Birds.Tilt` | bird.py:58 | the tilt is `-2 * yspeed` clamped to [-30, 30] (all three cases) and always lies in that range |
| `Birds.Step` | bird.py:50-59 | in flight: speed and cooldown kept, timer drops by dt, flight continues iff the timer is still >= 0. On the ground: never starts flying, speed grows by `G * dt * mass / 5` and the cooldown by dt (so neither decreases for dt, mass >= 0). Always: the tilt is `Tilt` of the new speed and so within [-30, 30], y moves by the new speed, the motion invariant is kept |
| `Birds.GravityAccumulates` | bird.py:55-57 | on the ground, over any ticks, speed grows by `G * mass / 5` times the total time, the cooldown by the total time, and the bird never starts flying |
| `Birds.FallingSpeedNonDecreasing` | bird.py:56 | a grounded bird's downward speed never decreases over non-negative ticks |
| `Birds.FlightHolds` | bird.py:51-54 | while total elapsed time is within the flight timer, the bird keeps flying with its speed and cooldown frozen, and the timer has dropped by the elapsed time |
| `Birds.FlightGlides` | bird.py:51-59 | during that time the height changes by the flight speed once per tick |
| `Birds.CoolingBounded` | bird.py:55-57 | over any non-negative ticks the cooldown grows by at most the elapsed time |
| `Birds.Jump` | bird.py:66-71 | speed becomes `min(yspeed, 0) - 5 * (1 + speed / 8)`, which is <= -5 and below the old speed for speed >= 0; flight cancelled; no other field changes |
| `Birds.StartFlight` | bird.py:79-88 | acts iff speed > 0 and the cooldown strictly exceeds 0.1; then flying at lift 0.5 with a full 0.5 s timer and a zeroed cooldown, height and tilt kept; otherwise nothing changes; afterwards it can never act again at once |
| `Birds.FlyTwiceIsFlyOnce` | bird.py:79-88 | a second fly straight after the first changes nothing |
| `Birds.FlyRateLimited` | bird.py:79-88 | after a successful fly, another fly within 0.1 s of ticks, however split, is a no-op |
| `Birds.FlightLastsItsDuration` | bird.py:82-86 | a started flight lasts its full duration at constant lift 0.5, the height moving by 0.5 per tick |
| `Birds.RunStat` | bird.py:72-78 | reports "cannot run" iff speed <= 0; otherwise the stat is mass * speed, doubled exactly when the bird has an item whose effect is on; the notice shows exactly when it has an item |
| `Birds.RosterNoticeMatchesBoost` | bird.py:142-149 | for the five roster birds, the item notice appears exactly when the stat is doubled |
| `Birds.Restart` | bird.py:151-154 | reset puts the bird at the start height at rest and keeps tilt, flight flag, flight timer and cooldown |
| `Birds.Bird.constructor` | bird.py:19-37 | a new bird is at column 120, half the screen height, at rest, not flying, with zero timers |
| `Birds.Bird.Update` | bird.py:50-59 | the fields change exactly as `Step` says, x is kept, and the motion invariant is kept for dt >= 0 |
| `Birds.Bird.BirdSound` | bird.py:66-71 | the fields change exactly as `Jump` says |
| `Birds.Bird.Fly` | bird.py:79-88 | the fields change exactly as `StartFlight` says |
| `Pipes.PipeVal.Advance` | bird.py:99-100 | x decreases by exactly speed * dt, and nothing else changes |
| `Pipes.PipeVal.Offscreen` | bird.py:102-103 | holds iff x + 80 < 0, i.e. the right edge has left the window; `OffscreenStays` shows it is permanent under scrolling |
| `Pipes.OffscreenStays` | bird.py:99-103 | a pair that is off screen stays off screen as it scrolls |
| `Pipes.PipeVal.Rects` | bird.py:105-111 | top rect at y = 0 of height `max(0, gapY - gapH // 2)`; bottom rect from `gapY + gapH // 2` down to the ground line, or empty; both at `int(x)`, width 80, non-negative heights, top above bottom |
| `Pipes.PipeVal.Collides` | bird.py:113-115 | holds iff the rectangle overlaps the top or the bottom pipe of `Rects`; `ClearThroughGap`, `ClearBeside` and `HitAboveGap` say which rectangles it accepts and rejects |
| `Pipes.ClearThroughGap` | bird.py:105-115 | a rectangle within the gap vertically hits neither pipe |
| `Pipes.ClearBeside` | bird.py:105-115 | a rectangle wholly left or right of the pair hits neither pipe |
| `Pipes.HitAboveGap` | bird.py:105-115 | a rectangle overlapping the pair horizontally and reaching above the gap hits it |
| `Pipes.PipePair.constructor` | bird.py:91-97 | a new pair holds its position and gap and is unscored |
| `Pipes.PipePair.Update` | bird.py:99-100 | the object changes exactly as `Advance` says |
| `Field.Spawn` | bird.py:232-236 | once the timer plus dt reaches 1.5 (boundary included), exactly one unscored pair is appended at x = 572 with gap 180 and the timer restarts at 0; otherwise the pairs are kept and the timer advances; the timer stays in [0, 1.5) |
| `Field.AdvanceAll` | bird.py:238-239 | every pair moves left by 180 * dt, with nothing else changed and none dropped |
| `Field.Cull` | bird.py:241 | never lengthens the field; `CullOnlyOnscreen`, `CullKeepsOnscreen`, `CullConcat` and `CullOrdered` show it keeps exactly the on-screen pairs in order |
| `Field.CullOnlyOnscreen` | bird.py:241 | every pair left after culling was in the list and is on screen |
| `Field.CullKeepsOnscreen` | bird.py:241 | every on-screen pair survives culling |
| `Field.CullConcat` | bird.py:241 | culling works element by element, so survivors keep their relative order |
| `Field.CullOrdered` | bird.py:241 | culling keeps the left-to-right order of the field |
| `Field.CullOnscreenPrefix` | bird.py:241 | culling a field whose first k pairs are off screen and the rest on screen drops exactly those k |
| `Field.FieldStep` | bird.py:232-241 | a field tick (spawn, then scroll every pair, then cull) adds at most one pair and keeps a non-negative timer in [0, 1.5) for dt >= 0; `FieldStepKeepsFieldOk` and `ThreeSpawnsTwoSurvive` carry its other properties |
| `Field.FieldStepKeepsFieldOk` | bird.py:232-241 | a field tick keeps the field ordered, on screen, at gap 180, gap centres in [120, 648], and scored only once passed |
| `Field.ThreeSpawnsTwoSurvive` | bird.py:232-241 | three 1.5 s ticks from an empty field leave exactly two pairs, at x = 32 and x = 302 |
| `Field.FirstHit` | bird.py:244-247 | the index where the scoring pass stops, at most the number of pairs; `FirstHitIsFirst` shows it is the first pair hit |
| `Field.FirstHitIsFirst` | bird.py:244-247 | the scoring pass stops at the first pair the bird hits: no pair before it collides, and it collides unless no pair does |
| `Field.ScoreAll` | bird.py:244-250 | the pairs after the scoring pass, as many as before; `ScoreAllMarksPassed` states which flags it sets |
| `Field.ScoreAllMarksPassed` | bird.py:244-250 | the pass never moves a pair or clears a flag; a flag is newly set exactly for passed unscored pairs before the first hit; pairs from the first hit on are untouched |
| `Field.Gained` | bird.py:248-250 | the points the pass awards, at most one per pair before the first hit; `GainedIsNewlyScored` shows it equals the number of flags set |
| `Field.GainedIsNewlyScored` | bird.py:248-250 | the points awarded equal the number of flags the pass sets |
| `Field.ScoringIsOneShot` | bird.py:248-250 | running the pass again from the same position changes nothing and awards nothing |
| `Field.ScoringKeepsFieldOk` | bird.py:244-250 | the pass keeps the field invariant for the bird's lane |
| `Field.OnePassedPairScoresOnce` | bird.py:248-250 | with the bird at x = 200, a pair ending at 190 scores and one ending at 210 does not |
| `Field.AdvancePipes` | bird.py:238-239 | the loop moves every pipe object exactly as `AdvanceAll` |
| `Field.KeepOnscreen` | bird.py:241 | the filtered list holds distinct objects from the input whose values are `Cull` of the input's values |
| `Field.TickField` | bird.py:232-241 | the field objects and timer after the tick are exactly `FieldStep` of the old values, with pipe objects distinct and each old or new |
| `Field.ScorePipes` | bird.py:244-250 | the loop leaves the pipes as `ScoreAll`, reports a hit iff some pair collides, and returns exactly the points `Gained` counts |
| `Session.EndGame` | bird.py:314-318 | status becomes Over; the best score becomes the larger of best and score, and only an improvement is saved; the saves log stays increasing and ends at the best; nothing else changes |
| `Session.BirdPhase` | bird.py:222-226 | after the physics step a bird above the window is put at y = 0 at rest; otherwise the step stands; y >= 0 and the motion invariant are kept |
| `Session.Tick` | bird.py:216-250 | one tick while playing: bird step and top clamp, landing ends the game at once, otherwise field tick, scoring pass and game over on a hit. Its properties are `TickKeepsWorldOk`, `HighScoreNeverDecreases`, `TickOutcome`, `LandingStopsTheTick` and `TickScoresNewlyScored` |
| `Session.TickKeepsWorldOk` | bird.py:216-250 | a tick keeps the session invariant: score >= 0, timer in [0, 1.5), field invariant, bird invariant, saves log consistent |
| `Session.HighScoreNeverDecreases` | bird.py:314-318 | the best score never decreases over a tick, and once the game is over it is at least the score |
| `Session.TickOutcome` | bird.py:227-247 | the tick ends the game exactly when the bird reaches the ground or hits a pair; otherwise the status is unchanged |
| `Session.LandingStopsTheTick` | bird.py:227-230 | on landing the bird rests on the ground line, the game is over, and no spawn, scroll or scoring happens |
| `Session.TickScoresNewlyScored` | bird.py:243-250 | otherwise the score grows by exactly the number of pairs newly marked scored, and the bird stays between the top and the ground |
| `Session.Cycle` | bird.py:185-192 | the selection moved by one wraps around modulo the roster size and stays in [0, 5) |
| `Session.CycleBack` | bird.py:185-192 | Left then Right (or Right then Left) returns to the same bird |
| `Session.Respond` | bird.py:180-214 | the command one event asks for, given the status and selection. Its properties are `EventTransitions` and `CommandsByStatus`; `Cycle` and `CycleBack` cover the selection |
| `Session.EventTransitions` | bird.py:179-214 | the status changes exactly on Enter, Space or any click in the menu (to Playing) and on Enter or Space (to Playing) or Esc (to Main) after a game over |
| `Session.CommandsByStatus` | bird.py:183-214 | the bird acts only while playing, the left click is exactly the jump and the right click exactly the flight, and the selection changes only in the menu and stays in range |
| `Session.EventsNeverEndAGame` | bird.py:179-214 | no sequence of events ends a game in progress |
| `Session.SelectionStaysInRoster` | bird.py:185-192 | after any sequence of events the selected index names a roster bird |
| `Session.HandleView` | bird.py:180-214 | one event changes the motion of the bird selected afterwards at most; every other roster bird keeps its motion |
| `Session.HandleViewAllReplays` | bird.py:179-214 | after a batch of events, status and selection are those `Replay` computes, and the loop keeps running iff no Quit came |
| `Session.EventsKeepTheField` | bird.py:196-211 | while a game is in progress no batch of events resets the field: score, pairs, spawn timer and selection are kept, status stays Playing, and only the bird in play can move |
| `Session.HandleViewKeepsOk` | bird.py:180-214 | one event keeps the session invariant on the event view: score >= 0, spawn timer in [0, 1.5), field invariant, and every roster bird's motion invariant |
| `Session.HandleViewAllKeepsOk` | bird.py:179-214 | so does every batch of events |
| `Session.MakeBirds` | bird.py:142-149 | five distinct fresh birds, one per roster entry in menu order, each at its start at rest |
| `Session.Game.constructor` | bird.py:124-140 | the session starts in the menu with the first bird selected, an empty field, score 0 and the loaded best score |
| `Session.Game.Reset` | bird.py:151-161 | bird back at column 120 and the start height at rest (`Restart`), score 0, no pipes, timer 0; status, selection and best score unchanged |
| `Session.Game.GameOver` | bird.py:314-318 | the session changes exactly as `EndGame` says |
| `Session.Game.Update` | bird.py:216-250 | in the menu or after a game over nothing changes; while playing the session becomes exactly `Tick` of the old snapshot; the roster invariant is kept |
| `Session.Game.MoveBird` | bird.py:222-226 | the bird changes exactly as `BirdPhase` says |
| `Session.Game.Land` | bird.py:227-230 | the bird is put on the ground line and the session ends as `EndGame` says |
| `Session.Game.PlayField` | bird.py:232-250 | the session becomes the field phase followed by the scoring phase of the tick |
| `Session.Game.AdvanceField` | bird.py:232-241 | the pipes and timer become `FieldStep` of the old ones |
| `Session.Game.ScoreField` | bird.py:243-250 | the session becomes `ScorePhase` of the old one: pass, points, game over on a hit |
| `Session.Game.HandleEvent` | bird.py:180-214 | the loop flag, status, selection, score, pipe values, spawn timer and every roster bird's motion become exactly `HandleView` of their old values; the best score and the saves are untouched |
| `Session.Game.Dispatch` | bird.py:180-214 | the event has the effect `Respond` picks: running, status, selection, reset of the field and bird, jump or flight of the selected bird; the best score and other birds are untouched |
| `Session.Game.HandleKey` | bird.py:183-205 | the same for a key press |
| `Session.Game.HandleClick` | bird.py:206-214 | the same for a mouse click |
| `Session.Game.HandleEvents` | bird.py:179-214 | after a batch of events, the whole event view (loop flag, status, selection, score, pipe values, spawn timer, every bird's motion) is `HandleViewAll` of the old one; running is off iff a Quit came, status and selection are `Replay` of the events, and the best score is untouched |

## Left out

- Drawing: `Bird.draw`, `PipePair.draw` and `Game.draw`/`draw_menu`/`draw_game`/`draw_game_over` (bird.py:61-64, 117-120, 252-312). These are rendering only. The `rect` that `Bird.draw` caches is never read, and the pipe colour is never changed.
- Images, sounds and names (bird.py:39-48): asset loading has no effect on the game state. The names and sounds are kept in `Kind` only as data.
- `pygame.init`, the window, fonts and caption (bird.py:125-132), and the `run` loop with its clock and `sys.exit` (bird.py:320-327). The frame time `dt` is a parameter, and `Game.Update` requires `dt >= 0`, which the clock guarantees.
- Random gap centres: `random.randint` (bird.py:235) is replaced by a `gapY` parameter required to lie in [120, 648].
- File I/O:
  - `load_high_score` (bird.py:163-169) is replaced by the constructor's `stored` parameter;
  - `save_high_score` (bird.py:171-177) is modelled as appending the new best score to the `saves` log;
  - a failed write is not modelled.
- Console output from `print` in `bird_sound`, `bird_running` and `fly`. `RunStat` returns the number that would be printed instead.
- Floating-point rounding: all arithmetic is on exact reals.
- The constants that `reset` reassigns to the same values every time (`spawn_interval`, `pipe_speed`, `gap`, `ground_y`) are module constants.
- Key aliases: the model's `Left` stands for both Left and A, and `Right` for both Right and D. Key codes not handled by the program are `OtherKey`.
- `Session.Game.Update`, `Session.Game.HandleEvent` and the other session methods require the object invariant `Valid()`. That invariant records these facts:
  - the roster has five distinct birds;
  - every bird is at column 120 and satisfies the motion invariant;
  - the selected bird is the one in play;
  - no pipe object is listed twice.

  The numeric session invariant is not carried by the class. It is proved on values instead: `WorldOk` (score, spawn timer, field, bird, saves) for `Tick` (`Session.TickKeepsWorldOk`), and `ViewOk` (score, spawn timer, field, every roster bird) for events (`Session.HandleViewKeepsOk`, `Session.HandleViewAllKeepsOk`). The methods are proved equal to those functions.
