# Badminton rally engine — a verified Dafny model

This project models the core of a gesture-controlled badminton game. A camera-tracked hand moves the
player along the court. The shuttle flies between the player and a computer opponent. A small state
machine resolves each rally leg.

The model covers three parts:

- **The stroke classifier** of `engine/shots.py`. It is the pure function `Shots.ClassifyShot` over the
  hand's per-frame delta `(dx, dy)`. Its `sqrt(dx²+dy²) > T` tests are stated as `dx²+dy² > T²`, and
  `Shots.SpeedExceedsIsSqrtComparison` proves the two agree for any non-negative threshold.
- **The rally state machine** `GameState` of `engine/state.py`. It runs
  `IDLE → TO_AI → AI_WAIT → TO_PLAYER → IDLE` using a clock value `now` that the caller supplies.
  - `Rally.Snapshot` is the value of all sixteen fields.
  - `Rally.StartHit` and `Rally.Advance` (with one function per branch) say what `start_player_hit`
    and `update` do to those fields.
  - `Rally.GameState` holds the same fields and updates them in place. Each method is proved to
    produce exactly the new state its function describes.
  - The properties are lemmas in module `RallyProperties`: what each phase guarantees, zone smoothing,
    the phase cycle, and the invariant that every horizontal coordinate stays on the court.
- **The per-frame input step** of `main.py` (`Game.InputStep`, and `Game.Tick` which adds `update`).
  It maps the hand to a clamped court target, debounces the ready flag, gates a stroke, and moves the
  player with a speed cap and smoothing. Its properties are in module `GameProperties`.

All quantities are `real`. The constant table of `main.py` is the record `Config.Constants`, and
`Config.Default` holds the shipped values. `Config.Valid` states what the arithmetic needs: a positive
base flight time and positive per-shot multipliers (they divide the flight parameter), and a positive
court width (it divides in `to_px`).

The engine's two random draws are parameters:

- `aim` is the value `random_target` returns. It is constrained to `[1.5, 8.5]`, the range of
  `random.uniform(1.5, 8.5)`.
- `second` says which of the two candidates `random.choice` picked in `choose_ai_shot`.

Three points where the code's behaviour is easy to misread:

- Calling `update` twice at the same `now` might be expected to change only the zone easing. That holds
  unless the first call leaves the state in `TO_PLAYER`. `RallyProperties.SecondUpdateOnlyEases`
  proves the restricted statement, and two concrete states show that neither exclusion can be dropped:
  - A first call that moves AI_WAIT to TO_PLAYER leaves the shuttle where TO_AI snapped it. The
    second call, at t = 0, moves it to the start of the return leg
    (`RallyProperties.SecondUpdateMovesReturnShuttle`).
  - A return flight still in the air can miss on the first call and be caught on the second. The
    catch test then reads the player depth the first call just eased
    (`RallyProperties.SecondUpdateCatchesAfterEasing`).
- The loop plays a detected stroke that the classifier does not recognise as NORMAL. With the shipped
  thresholds this cannot happen: `GameProperties.StrokeIsClassified` shows that
  `detect_stroke` implies a recognised shot, because 0.035 > 0.015.
- The code never clamps the horizontal coordinates to the court directly. That they stay on the court
  is instead proved as a preserved invariant
  (`RallyProperties.AdvanceKeepsOnCourt`, `GameProperties.TickKeepsOnCourt`), given that `now` never
  runs backward.

## Model

| member | source | states |
|---|---|---|
| `Shots.SpeedExceedsIsSqrtComparison` | engine/shots.py:14 | for a threshold ≥ 0, `sqrt(dx²+dy²) > T` holds exactly when `dx²+dy² > T²` |
| `Shots.ClassifyShot` | engine/shots.py:13-31 | the priority cascade SMASH, CLEAR, DROP, None; never yields NORMAL |
| `Shots.ComponentBoundsSpeed` | engine/shots.py:14 | one delta component beyond a bound in absolute value forces the speed beyond that bound |
| `Shots.SmashExactlyWhenDownward` | engine/shots.py:5-21 | SMASH exactly when dy > 0.08 (the speed test is implied) |
| `Shots.ClearExactlyWhenUpward` | engine/shots.py:6-25 | CLEAR exactly when dy < −0.08 (the speed test is implied) |
| `Shots.DropExactlyWhenSlowAndLevel` | engine/shots.py:27-29 | DROP exactly when −0.08 ≤ dy ≤ 0.08 and the speed exceeds 0.015 |
| `Shots.NoneExactlyWhenStill` | engine/shots.py:28-31 | None exactly when dx²+dy² ≤ 0.015² |
| `Shots.MirrorInvariant` | engine/shots.py:14 | the result depends on dx only through dx²: classifying (−dx, dy) gives the same shot |
| `Config.TimeModifier` | engine/state.py:84-85 | the per-shot multiplier is positive, and 1.0 for a shot missing from the table |
| `Config.LegDuration` | engine/state.py:79-85 | the leg duration (base time × multiplier) is positive, so the division is defined |
| `Config.DefaultValid` | main.py:10-31 | the shipped constant table meets the engine's requirements |
| `Config.DefaultLegOrder` | main.py:25-30 | with the shipped multipliers, smash < drop < normal < clear in flight time |
| `Rally.FlightParam` | engine/state.py:89 | t ≤ 1; t ≥ 0 once the leg has started; t reaches 1 exactly when the leg's duration has elapsed |
| `Rally.FlightParamMonotone` | engine/state.py:149 | within a leg t never decreases as `now` advances |
| `Rally.LerpBetween` | engine/state.py:101-102 | for t in [0, 1] the interpolated point lies between the leg's endpoints |
| `Rally.ZonesMirror` | engine/state.py:69-76 | each zone lies as far from the opponent's base line as from the player's, on the other side |
| `Rally.ReactTimeOrder` | engine/state.py:121-126 | reaction time is shortest after a drop (×0.6), longest after a smash (×1.4), and ×0.9 otherwise |
| `Rally.ChooseAiShot` | engine/state.py:55-62 | returns SMASH, CLEAR or DROP; never SMASH after a SMASH; each incoming shot picks between its two listed candidates; any other shot gets CLEAR |
| `Rally.DynamicRadius` | engine/state.py:163-172 | max(0.3, CATCH_RADIUS·k − 0.4·\|target − player\|) with k from `RadiusFactor`: never below 0.3, and never above a still player's radius |
| `Rally.RadiusFactor` | engine/state.py:165-168 | definition: the catch-radius multiplier 0.65 for SMASH, 1.25 for DROP, 1 otherwise |
| `Rally.RadiusShrinksWithMotion` | engine/state.py:170-172 | a player further from their movement target never gets a larger catch radius |
| `Rally.EaseNoOvershoot` | engine/state.py:204-207 | one smoothing step leaves 85% of the gap, with the same sign, so the depth never overshoots |
| `Rally.GameState.constructor` | engine/state.py:6-32 | the fields hold the initial values of `__init__` |
| `Rally.GameState.StartPlayerHit` | engine/state.py:39-50 | the object's new state is `StartHit` of its old state |
| `Rally.GameState.Update` | engine/state.py:65-207 | the object's new state is `Advance` of its old state |
| `Rally.GameState.FlyToAi` | engine/state.py:88-115 | in-place TO_AI branch, equal to `AdvanceToAi` |
| `Rally.GameState.AwaitReturn` | engine/state.py:118-145 | in-place AI_WAIT branch, equal to `AdvanceAiWait` |
| `Rally.GameState.FlyToPlayer` | engine/state.py:148-201 | in-place TO_PLAYER branch, equal to `AdvanceToPlayer` |
| `Rally.GameState.SmoothZones` | engine/state.py:204-207 | in-place zone smoothing, equal to `EaseZones` |
| `RallyProperties.StartHitEffect` | engine/state.py:35-50 | TO_AI at `now`, stroke time `now`, not ready, shot recorded; a non-drop aims in [1.5, 8.5]; a drop lands 40% of the way toward the random target, between it and the player; nothing else changes |
| `RallyProperties.ToAiInFlight` | engine/state.py:88-102 | before the leg ends: still TO_AI, the player's target zone is the shot's zone, and the shuttle lies on the leg between its endpoints |
| `RallyProperties.ToAiCompletes` | engine/state.py:104-115 | at t ≥ 1: the opponent moves to the landing point, the shuttle snaps to the opponent, the opponent's target zone follows the shot, and AI_WAIT starts at `now` |
| `RallyProperties.AiWaitHolds` | engine/state.py:118-128 | until the shot-scaled reaction time has passed, nothing but the zones changes |
| `RallyProperties.AiWaitReturns` | engine/state.py:128-143 | after it: TO_PLAYER at `now` with the opponent's pick (never a smash after a smash); a drop aims 60% of the way toward the player, anything else at the random target |
| `RallyProperties.CatchWins` | engine/state.py:174-194 | an early catch, at any t, gives IDLE, not ready, the shuttle on the player, and the player's zone per the shot |
| `RallyProperties.ReturnResolves` | engine/state.py:179-201 | TO_PLAYER ends exactly on a catch or once t reaches 1, so a miss is never resolved earlier; until then the leg and the ready flag are unchanged |
| `RallyProperties.ReturnFlightBetween` | engine/state.py:149-158 | without a catch, the returning shuttle lies between the opponent and the aim point |
| `RallyProperties.ZonesEaseEveryUpdate` | engine/state.py:203-207 | in every state both depths close 15% of the gap to their targets, without overshoot |
| `RallyProperties.IdleOnlyEases` | engine/state.py:87-148 | in IDLE, update changes nothing but the zone depths |
| `RallyProperties.UpdateFollowsCycle` | engine/state.py:88-201 | update keeps the phase or moves it one step along TO_AI → AI_WAIT → TO_PLAYER → IDLE |
| `RallyProperties.SecondUpdateOnlyEases` | engine/state.py:65-207 | a second update at the same `now` only eases the zones again, unless the first ended in TO_PLAYER |
| `RallyProperties.SecondUpdateMovesReturnShuttle` | engine/state.py:113-159 | witness: from AI_WAIT, a second update at the same `now` moves the shuttle from 100 to 150, so it is not just easing |
| `RallyProperties.SecondUpdateCatchesAfterEasing` | engine/state.py:174-207 | witness: a return flight that misses (depth gap 36) is caught on a second update at the same `now` (gap 30.6 after easing) |
| `RallyProperties.UpdateNeverReadies` | engine/state.py:65-207 | update never turns the ready flag on |
| `RallyProperties.StartHitKeepsOnCourt` | engine/state.py:35-45 | a hit keeps every horizontal coordinate in [0, COURT_WIDTH] |
| `RallyProperties.AdvanceKeepsOnCourt` | engine/state.py:99-181 | update keeps every horizontal coordinate in [0, COURT_WIDTH], and the state start time never lies after `now` |
| `Game.Clamp` | main.py:38-39 | the result lies in [lo, hi] when lo ≤ hi; an in-range value is returned unchanged; values below or above map to the bounds |
| `Game.MapHandX` | main.py:64-66 | the court target for a hand x always lies in [0, COURT_WIDTH] |
| `Game.Trunc` | main.py:45 | `int()` truncates toward zero: within 1 of its argument, never past zero |
| `Game.InputStep` | main.py:63-98 | the game object's new state is `Frame` of its old state |
| `Game.Tick` | main.py:63-101 | the new state is the input step followed by `update` at the same `now` |
| `GameProperties.HandSetsTarget` | main.py:63-66 | a visible hand sets the target to the mapped x, within [0, COURT_WIDTH]; with no hand the hand-input block changes nothing, and the whole input step changes only `player_x` |
| `GameProperties.ReadyOnlyWhenNeutral` | main.py:69-75 | the ready flag turns true exactly when a hand is idle-still (both \|d\| < 0.012) while IDLE and not ready |
| `GameProperties.StrokeExactlyWhenFires` | main.py:77-89 | a stroke happens exactly when IDLE, ready, past the cooldown and `detect_stroke` holds, and it is `start_player_hit` with the classified shot |
| `GameProperties.TickReadyOnlyWhenNeutral` | main.py:63-101 | over a whole frame the ready flag turns true exactly when a hand is still while IDLE and not ready |
| `GameProperties.ReadyAndStrokeExclusive` | main.py:69-89 | a ready flip and a stroke never happen in the same frame |
| `GameProperties.StrokeIsClassified` | main.py:41-42 | when the movement threshold is at least 0.015, a detected stroke is always classified, so the NORMAL fallback is unused |
| `GameProperties.StrokeNeverNormal` | main.py:83-89 | with the shipped table a stroke from the loop never carries NORMAL |
| `GameProperties.PlayerStepBounds` | main.py:93-98 | the step has the gap's sign, is no longer than the gap, and is at most MAX_PLAYER_SPEED × SMOOTHING |
| `GameProperties.DefaultStepAtMost` | main.py:21-23 | with the shipped table the player moves at most 0.315 per frame |
| `GameProperties.MovePlayerTowardTarget` | main.py:93-98 | the player moves toward the target without passing it; nothing else changes; the court invariant is kept |
| `GameProperties.FrameKeepsOnCourt` | main.py:63-98 | the input step keeps every horizontal coordinate in [0, COURT_WIDTH] |
| `GameProperties.TickKeepsOnCourt` | main.py:63-101 | a whole frame (input step, then update) keeps the court invariant |
| `GameProperties.InitialOnCourt` | engine/state.py:13-30 | the initial state lies on the shipped court |
| `GameProperties.ToPxEnds` | main.py:44-48 | `to_px` maps 0 to 50 and COURT_WIDTH to SCREEN_W − 50 |
| `GameProperties.DefaultToPxEnds` | main.py:10-12 | with the shipped table, 0 maps to 50 and 10 maps to 550 |
| `GameProperties.TruncMonotone` | main.py:45 | truncation toward zero is monotone |
| `GameProperties.ToPxMonotone` | main.py:44-48 | `to_px` is monotone in its argument |
| `Shots.SpeedExceeds` | engine/shots.py:14 | definition: the speed test `sqrt(dx²+dy²) > T` as `dx²+dy² > T²`; agreement in `SpeedExceedsIsSqrtComparison` |
| `Config.Valid` | main.py:10-31 | definition: what the engine's divisions need of the table (positive base time, multipliers and court width) |
| `Rally.InAimRange` | engine/state.py:35-36 | definition: the values `random_target` can return, [1.5, 8.5] |
| `Rally.Lerp` | engine/state.py:101-102 | definition: the linear interpolation of each flight leg, also used for the drop pulls and zone smoothing |
| `Rally.PlayerZone` | engine/state.py:70-72 | definition: the player's net, back and base depths per shot; properties in `ZonesMirror`, `ToAiInFlight` |
| `Rally.AiZone` | engine/state.py:74-76 | definition: the opponent's mirrored zone depths per shot; properties in `ZonesMirror`, `ToAiCompletes` |
| `Rally.ReactTime` | engine/state.py:121-126 | definition: AI_REACT_TIME × 1.4 / 0.6 / 0.9 by incoming shot; ordered in `ReactTimeOrder` |
| `Rally.Ease` | engine/state.py:204-207 | definition: one zone-smoothing step; properties in `EaseNoOvershoot` |
| `Rally.StartHit` | engine/state.py:39-50 | definition of `start_player_hit` on the whole state; properties in `StartHitEffect`, `StartHitKeepsOnCourt` |
| `Rally.AdvanceToAi` | engine/state.py:88-115 | definition of the TO_AI branch; properties in `ToAiInFlight`, `ToAiCompletes` |
| `Rally.AdvanceAiWait` | engine/state.py:118-145 | definition of the AI_WAIT branch; properties in `AiWaitHolds`, `AiWaitReturns` |
| `Rally.ReturnShuttleX` | engine/state.py:158 | definition: the returning shuttle's x at flight parameter t |
| `Rally.ReturnShuttleY` | engine/state.py:151-159 | definition: the returning shuttle's depth at t, starting at the opponent's zone for the shot |
| `Rally.ReturnParam` | engine/state.py:149 | definition: the flight parameter of the return leg |
| `Rally.Catches` | engine/state.py:174-179 | definition: the early-catch test, x distance below the dynamic radius and depth distance below 35 |
| `Rally.AdvanceToPlayer` | engine/state.py:148-201 | definition of the TO_PLAYER branch; properties in `CatchWins`, `ReturnResolves`, `ReturnFlightBetween` |
| `Rally.EaseZones` | engine/state.py:203-207 | definition of the zone smoothing at the end of update; properties in `ZonesEaseEveryUpdate` |
| `Rally.Advance` | engine/state.py:65-207 | definition of `update` on the whole state: the phase's branch, then zone smoothing; properties in module `RallyProperties` |
| `Rally.OnCourt` | engine/state.py:12-15 | definition: every horizontal coordinate in [0, COURT_WIDTH]; preserved by `AdvanceKeepsOnCourt`, `TickKeepsOnCourt` |
| `Rally.Successor` | engine/state.py:88-201 | definition: the phase cycle TO_AI → AI_WAIT → TO_PLAYER → IDLE → TO_AI; used by `UpdateFollowsCycle` |
| `Game.DetectStroke` | main.py:41-42 | definition: either delta component beyond MOVE_THRESHOLD; its consequence in `StrokeIsClassified` |
| `Game.IsNeutral` | main.py:70-73 | definition: both delta components below NEUTRAL_THRESHOLD; used by `ReadyOnlyWhenNeutral` |
| `Game.ToPx` | main.py:44-48 | definition of `to_px`; properties in `ToPxEnds`, `ToPxMonotone` |
| `Game.StrokeShot` | main.py:84-89 | definition: the classified shot, or NORMAL when there is none; never NORMAL per `StrokeIsClassified` |
| `Game.StrokeFires` | main.py:78-83 | definition: IDLE, ready, past the cooldown and a stroke detected; used by `StrokeExactlyWhenFires` |
| `Game.HandInput` | main.py:63-89 | definition of the hand-input block; properties in `HandSetsTarget`, `ReadyOnlyWhenNeutral`, `StrokeExactlyWhenFires` |
| `Game.PlayerStep` | main.py:93-98 | definition: the gap clamped to ±MAX_PLAYER_SPEED times SMOOTHING; bounded in `PlayerStepBounds` |
| `Game.MovePlayer` | main.py:93-98 | definition of the player-movement block; properties in `MovePlayerTowardTarget` |
| `Game.Frame` | main.py:63-98 | definition: hand input, then player movement; properties in `FrameKeepsOnCourt`, `TickReadyOnlyWhenNeutral` |

## Left out

- Camera capture, MediaPipe hand landmarks and OpenCV drawing and windowing (main.py:34-35, 53-60, 103-151; vision/hand_tracking.py): these are foreign library calls and I/O. A frame's hand sample is an optional `(cx, dx, dy)`, and `cy` is not used by the loop.
- `time.time()` (main.py:60): the clock is the parameter `now`. Nothing enforces that it increases; the court-invariant lemmas assume the state's start time is not after `now`.
- Console `print` logging (engine/state.py:52, 145, 184, 198; main.py:50, 75, 87): it is output only.
- engine/physics.py: it is not wired into the loop or the state machine, and it reads the clock itself.
- The draft scripts (`phase1_*.py`, `phase2_*.py`): the running game replaced them with the engine modules.
- The random number generator: `random.uniform` and `random.choice` become the caller-supplied `aim` and `second`.
- IEEE floating point: all arithmetic is exact `real` arithmetic, so rounding is not modelled.
- The constant table as a dictionary: a missing required key (a `KeyError` in the source) is not modelled. The table is a record whose fields are always present. Only the optional `SHOT_TIME_MODIFIERS` lookup keeps its 1.0 default.
- The default argument `shot_type="NORMAL"` of `start_player_hit` and the `getattr(self, "shot_type", "NORMAL")` fallback: the only caller always passes a shot, and `__init__` always sets the field. The model uses a required argument and a plain field.
- RallyProperties.SecondUpdateOnlyEases: weaker than full idempotence of `update`; it excludes a first update that ends in TO_PLAYER. When that update started the return leg, the second call moves the shuttle to the leg's start. When the leg was already in flight, the catch test reads the just-eased player depth and can now succeed. `SecondUpdateMovesReturnShuttle` and `SecondUpdateCatchesAfterEasing` exhibit both.
