# Unity 2D platformer: discrete game state in Dafny

This project models the discrete state behind a small Unity 2D platformer. It covers three behaviours.

- **GameManager** keeps the score (`totalPoint` banked, `stagePoint` in the current stage), the stage index with its row of stage regions, the player's health with one indicator image per life, the restart button, and the global time scale.
- **PlayerMove** turns engine callbacks into updates of that state:
  - item pickups add points by the item's metal;
  - an enemy contact is either an attack (a stomp) or damage;
  - the finish flag advances the stage;
  - a jump is latched on the animator's `isJumping` flag;
  - actions pick an audio clip by name.
- **EnemyMove** patrols in direction `nextMove` ∈ {-1, 0, 1}. A self-rescheduling `Think` callback picks a new direction. An edge probe reverses the direction at a ledge. A stomp puts the enemy in its death pose and schedules its deactivation.

Physics readings (velocities, positions, ray hits and distances), input and random numbers enter as plain values.

The files and their modules:

- `game.dfy` (module `Game`): the classes `GameManager` and `PlayerMove`. They hold references to each other, so they share one module. Every `GameManager` method that changes the manager is proved against a step function of `Progress`: `Model()` after the call equals the step function applied to `Model()` before it. So is each effect a `PlayerMove` handler has on the manager (`CollectOf`, `NextStageOf`, `StompOf`, `HealthDownOf`) and on a stomped enemy (`StompedOf`). `PlayerMove.Update` and `PlayerMove.FixedUpdate` are proved against `Latch` and `StopSpeed`. The rest of the player's own state (position and velocity, looks, layer, pending callbacks, knockback direction) is stated field by field in each handler's contract.
- `progress.dfy` (module `Progress`): the manager's state as a value, `ManagerState`, and the effect of each operation on it. It also proves what any sequence of gameplay events does to that state:
  - `ScoreLedger`: the displayed score grows by exactly the points earned;
  - `StageProgress`: exactly one stage stays active, one step per finish up to the last stage, and time freezes at the end;
  - `HealthCountdown`: health counts down to 1, and each later hit sends the death signal.
- `enemy.dfy` (module `Enemy`): the enemy's state as a value, `EnemyState`, its step functions and the class `EnemyMove`, whose every method is proved against one of those step functions. It proves that the think cycle always has exactly one `Think` pending (`PatrolInvariant`).
- `player_rules.dfy` (module `PlayerRules`): PlayerMove's pure decisions. It also proves that jumps and landings alternate (`JumpsAlternateWithLandings`).
- `timers.dfy` (module `Timers`): the pending `Invoke` callbacks of one object, in scheduling order.
- `text.dfy` (module `Text`): ordinal substring search, as `string.Contains` does it.
- `wrappers.dfy` (module `Wrappers`): `Option`.

Some behaviour of the code as written shows up in the contracts:

- `CancelInvoke()` in `turn` clears every pending callback of the enemy, its scheduled `DeActive` included. A stomped enemy whose edge probe misses before the 5-second delay ends is never deactivated (`EdgeTurnCancelsDeActive`, `StaysActiveWithoutDeActive`). `StaysActiveWithoutDeActive` assumes no further stomp; the first stomp turned the enemy's collider off, so the player cannot stomp it again.
- On a fatal enemy hit, `HealthDown` makes the player die, which selects the DIE clip. `OnCollisionEnter2D` then selects DAMAGED, so that clip is the one left selected.
- `HealthDown` never takes health below 1. Each call made with health at 1 or less sends the death signal again and shows the restart button.

## Model

| member | source | states |
|---|---|---|
| `Text.ContainsIffOccurs` | Assets/Scripts/PlayerMove.cs:148-150 | the left-to-right scan used for `Contains` succeeds exactly when the pattern occurs at some index of the name |
| `PlayerRules.Reward` | Assets/Scripts/PlayerMove.cs:148-158 | the reward is 0 exactly when the name mentions no metal; otherwise it is the value of a metal the name mentions and no more than any mentioned metal's value, i.e. the cheapest match (Bronze 50, Silver 100, Gold 200) |
| `PlayerRules.RewardPriority` | Assets/Scripts/PlayerMove.cs:152-158 | Bronze wins over Silver and Gold, Silver over Gold; a name with none of the three is worth 0 |
| `PlayerRules.KnockbackSign` | Assets/Scripts/PlayerMove.cs:190 | the sign is ±1, points away from the target (sign × (player.x − target.x) ≥ 0), and is −1 when the x positions are equal |
| `PlayerRules.StopSpeed` | Assets/Scripts/PlayerMove.cs:71-73 | on a horizontal key release the horizontal speed becomes half the x component of the unit velocity: it lies in [−0.5, 0.5] and keeps the sign of the old horizontal speed (zero stays zero) |
| `PlayerRules.ClipFor` | Assets/Scripts/PlayerMove.cs:36-55 | an action selects a clip only if it is that clip's own action name, and every one of the six names selects a clip; any other string selects none |
| `PlayerRules.ClipRoundTrip` | Assets/Scripts/PlayerMove.cs:36-55 | each of JUMP, ATTACK, DAMAGED, ITEM, DIE, FINISH selects its own clip, so no two actions share one |
| `PlayerRules.Latch` | Assets/Scripts/PlayerMove.cs:64-115 | a jump edge with the flag clear sets `isJumping`; a landing tick (falling, ray hit, distance < 0.5) clears it; the flag is set by nothing but a jump and cleared by nothing but a landing |
| `PlayerRules.JumpsAlternateWithLandings` | Assets/Scripts/PlayerMove.cs:105-115 | along any sequence of frames, jumps minus landings equals the change of the flag, so at most one jump happens without a landing in between |
| `Enemy.TurnTwice` | Assets/Scripts/EnemyMove.cs:56-59 | turning twice restores `nextMove`, a turn keeps it in {-1, 0, 1}, and afterwards `flipX` holds exactly when the new direction is 1 |
| `Enemy.TurnResetsTimers` | Assets/Scripts/EnemyMove.cs:60-61 | after a turn the pending callbacks are exactly one `Think` at delay 2, whatever was pending, a `DeActive` included |
| `Enemy.ThinkFacing` | Assets/Scripts/EnemyMove.cs:43-53 | Think moves in {-1, 0, 1}, keeps `flipX` when it picks 0 and faces the new direction otherwise, and adds exactly one pending `Think` |
| `Enemy.AwakeStartsPatrol` | Assets/Scripts/EnemyMove.cs:20 | a fresh enemy after Awake has exactly one pending callback, `Think` at delay 5 |
| `Enemy.StepKeepsPatrol` | Assets/Scripts/EnemyMove.cs:32-75 | a tick, a stomp or the firing of any pending callback keeps the direction in range and exactly one `Think` pending |
| `Enemy.PatrolInvariant` | Assets/Scripts/EnemyMove.cs:20-61 | over any sequence of ticks, stomps and firings, exactly one `Think` stays pending and `nextMove` stays in {-1, 0, 1} |
| `Enemy.EdgeTurnCancelsDeActive` | Assets/Scripts/EnemyMove.cs:60-75 | a stomp schedules a `DeActive`; an edge turn right after removes it and leaves the enemy active |
| `Enemy.StepWithoutDeActive` | Assets/Scripts/EnemyMove.cs:32-81 | with no `DeActive` pending, a tick or a firing neither deactivates the enemy nor schedules a `DeActive` |
| `Enemy.StaysActiveWithoutDeActive` | Assets/Scripts/EnemyMove.cs:56-81 | with no `DeActive` pending and no further stomp, no sequence of ticks and firings ever deactivates the enemy |
| `Enemy.EnemyMove.constructor` | Assets/Scripts/EnemyMove.cs:5-11 | a placed enemy is at rest, is visible and solid, and has nothing scheduled |
| `Enemy.EnemyMove.Awake` | Assets/Scripts/EnemyMove.cs:13-21 | schedules `Think` at delay 5 and changes nothing else |
| `Enemy.EnemyMove.FixedUpdate` | Assets/Scripts/EnemyMove.cs:24-37 | sets the horizontal velocity to `nextMove`; turns iff the probe reports no platform, otherwise leaves direction, facing and pending callbacks alone |
| `Enemy.EnemyMove.Think` | Assets/Scripts/EnemyMove.cs:40-54 | picks a direction in {-1, 0, 1}, leaves `flipX` when it is 0, and appends one `Think` with a delay in [2, 5] |
| `Enemy.EnemyMove.Turn` | Assets/Scripts/EnemyMove.cs:56-62 | negates `nextMove`, sets `flipX` to (`nextMove` == 1), and replaces everything pending by one `Think` at delay 2 |
| `Enemy.EnemyMove.OnDamaged` | Assets/Scripts/EnemyMove.cs:64-76 | translucent, flipped vertically, collider off, and `DeActive` appended at delay 5 |
| `Enemy.EnemyMove.DeActive` | Assets/Scripts/EnemyMove.cs:78-81 | the enemy becomes inactive and nothing else changes |
| `Progress.NextStageOf` | Assets/Scripts/GameManager.cs:28-51 | with a stage left: the old stage goes inactive, the index grows by exactly 1, the new stage goes active, no other flag changes; at the last stage: index and flags unchanged, time scale 0, restart button shown as "Game Clear!"; on both branches the stage's points are banked, so `totalPoint + stagePoint` is unchanged and `stagePoint` is 0 |
| `Progress.NextStageKeepsOneActive` | Assets/Scripts/GameManager.cs:31-34 | if exactly the stage at the index is active before NextStage, the same holds after it |
| `Progress.HealthDownOf` | Assets/Scripts/GameManager.cs:53-66 | above 1: health drops by exactly 1 and only the indicator at the new health turns to the lost tint; at 1 or below: health and indicators unchanged and the restart button shown; nothing else changes |
| `Progress.CollectOf` | Assets/Scripts/PlayerMove.cs:146-158 | a pickup changes only `stagePoint`, and the displayed score by exactly the item's reward |
| `Progress.StompOf` | Assets/Scripts/PlayerMove.cs:172-175 | an attack changes only `stagePoint`, and the displayed score by exactly 100 |
| `Progress.StepOf` | Assets/Scripts/GameManager.cs:28-66 | every gameplay event keeps the index on a real stage and every life backed by an indicator |
| `Progress.RunOf` | Assets/Scripts/GameManager.cs:28-66 | any sequence of events keeps that wiring and the sizes of the stage and indicator rows |
| `Progress.ScoreLedger` | Assets/Scripts/GameManager.cs:26-50 | over any interleaving of finishes, pickups, stomps and hits, the displayed score equals the starting score plus the item rewards plus 100 per stomp |
| `Progress.StageProgress` | Assets/Scripts/GameManager.cs:28-46 | over any events, exactly one stage stays active; the index is min(start + finishes, last stage); time is frozen exactly when a finish was reached on the last stage |
| `Progress.HealthCountdown` | Assets/Scripts/GameManager.cs:53-66 | over any events, health is max(1, start − hits), the indicators tinted lost are exactly those from the final health up to the start, and the death signal is sent max(0, hits − (start − 1)) times |
| `Game.GameManager.constructor` | Assets/Scripts/GameManager.cs:11-21 | the scene as it loads: stage 0 the only active stage, every indicator normal, no points, time running, restart button hidden |
| `Game.GameManager.Update` | Assets/Scripts/GameManager.cs:24-27 | the point label shows `totalPoint + stagePoint` |
| `Game.GameManager.NextStage` | Assets/Scripts/GameManager.cs:28-51 | the new manager state is `NextStageOf` of the old one; when a stage remains, the player is put at (0, 0, -1) at rest and the stage label shows index + 1; at the last stage the player's position and velocity and the stage label are unchanged |
| `Game.GameManager.HealthDown` | Assets/Scripts/GameManager.cs:53-66 | the new state is `HealthDownOf` of the old; above 1 the player is untouched; at 1 or below the player is in the death pose with the DIE clip |
| `Game.GameManager.OnTriggerEnter2D` | Assets/Scripts/GameManager.cs:73-83 | for the player: the player respawns exactly when health was above 1 at entry, and the state then loses a life as by `HealthDownOf`; on a fatal entry the player keeps its position and velocity and dies; for any other body the manager and the player's position, velocity and looks are unchanged |
| `Game.GameManager.PlayerReposition` | Assets/Scripts/GameManager.cs:85-89 | the player is at (0, 0, -1) with zero velocity |
| `Game.GameManager.Restart` | Assets/Scripts/GameManager.cs:91-95 | the time scale is 1 again and nothing else in the manager changes |
| `Game.PlayerMove.constructor` | Assets/Scripts/PlayerMove.cs:5-32 | the player as placed: solid, opaque, on layer 10, not jumping, no clip selected, nothing scheduled |
| `Game.PlayerMove.PlaySound` | Assets/Scripts/PlayerMove.cs:34-56 | one of the six action names selects its clip; any other string leaves the selected clip as it was |
| `Game.PlayerMove.Update` | Assets/Scripts/PlayerMove.cs:61-86 | `isJumping` follows `Latch` for the frame and the JUMP clip is selected exactly when a jump fires; on a horizontal key release the horizontal speed becomes `StopSpeed`, otherwise it is unchanged; the sprite faces left iff a held axis reads -1; walking iff the absolute horizontal speed after the release step is at least 0.3 |
| `Game.PlayerMove.FixedUpdate` | Assets/Scripts/PlayerMove.cs:91-118 | `isJumping` follows `Latch` for the tick; it is cleared only when falling with a ray hit closer than 0.5 |
| `Game.PlayerMove.OnCollisionEnter2D` | Assets/Scripts/PlayerMove.cs:125-137 | for an enemy exactly one path runs, decided by `Stomps` on the player's vertical speed and height and the body's height: falling and above it gives +100 stage points and the enemy's death sequence, with health, layer, looks and pending callbacks untouched; otherwise one `HealthDown`, layer 11, translucent, `offDamaged` at 3, knockback away from the body's x, the death pose only on a fatal hit, and the enemy untouched; other bodies change neither the manager nor the player's looks, layer, callbacks or knockback, nor the enemy |
| `Game.PlayerMove.OnTriggerEnter2D` | Assets/Scripts/PlayerMove.cs:144-170 | an item adds its reward to `stagePoint` only and is deactivated, whatever the reward, and the player does not move; the finish runs `NextStage` exactly once, respawning the player when a stage remains and leaving position, velocity and stage label alone at the last stage; anything else changes nothing |
| `Game.PlayerMove.OnAttack` | Assets/Scripts/PlayerMove.cs:172-181 | exactly 100 more stage points and the enemy's `OnDamaged` effects |
| `Game.PlayerMove.OnDamaged` | Assets/Scripts/PlayerMove.cs:183-196 | one `HealthDown`, layer 11, translucent, knockback direction `KnockbackSign` away from the target, `offDamaged` scheduled at delay 3; on a fatal hit the player is in the death pose, otherwise clip, flip and collider are unchanged |
| `Game.PlayerMove.OffDamaged` | Assets/Scripts/PlayerMove.cs:198-202 | layer 10 and opaque again |
| `Game.PlayerMove.OnDie` | Assets/Scripts/PlayerMove.cs:204-215 | translucent, flipped vertically, collider off, DIE clip selected |
| `Game.PlayerMove.VelocityZero` | Assets/Scripts/PlayerMove.cs:217-220 | the velocity is zero |

## Left out

- Physics is left out: every `AddForce` impulse is engine numerics on floats. This covers the jump, the move, the attack bounce, the knockback, and both die jumps. The speed clamp and velocity integration are left out for the same reason. Of the knockback only its horizontal direction is modelled: `OnDamaged` records `KnockbackSign` in `knockback`.
- PlayerMove.Update: the release step divides by the velocity's magnitude exactly, in real arithmetic. The engine's square root enters as the parameter `speed`. Unity's `normalized` also returns zero for magnitudes below 1e-5; that threshold and float rounding are not modelled.
- `Physics2D.Raycast`, `LayerMask` and `Debug.DrawRay` are left out. Ray results enter as a hit flag and a distance.
- Animator parameters other than `isJumping` and `isWalking` are left out (`walkSpeed`, the `damaged` trigger), and so is `Debug.Log`. Sprite colours are reduced to a translucent flag, and indicator colours to a `Tint`.
- UI text formatting is left out. The point and stage labels are held as the integers they display.
- `SceneManager.LoadScene` is left out: scene reload is an engine reset. `Restart` only sets the time scale.
- When an `Invoke` fires is left out. The model keeps the pending callbacks and their nominal delays. In the event sequences of `Enemy`, firing is an event that names which pending callback runs, and the engine's choice of order is not modelled.
- Event sequences are not restricted to what the engine would deliver. An inactive enemy still receives ticks and firings in them.
- `Input` reads become method parameters. `Random.Range` becomes a nondeterministic choice in `EnemyMove.Think` and values carried by `Fire` events.
- `GetComponent` lookups are left out. The collided body's `EnemyMove` component is a parameter. It may be null, except on a stomp, where the source dereferences it. The body's position comes from the body itself (`SceneObject.x`, `SceneObject.y`).
- Scores and health are unbounded integers, so C#'s 32-bit `int` overflow is not modelled.
- The scene's references between the manager and the player are fields set outside the model. The handlers require them to point at each other.
- Game.GameManager.HealthDown: requires at least `health` indicators whenever health is above 1. With fewer, the source decrements `health` and then throws IndexOutOfRangeException at GameManager.cs:57. The model rules out that scene set-up and does not model the exception or the decrement it leaves behind.
- Progress.HealthDownOf: carries the same requirement as `HealthDown`, for the same reason.
- Game.GameManager.OnTriggerEnter2D: carries the same requirement as `HealthDown`, because it calls it.
- Game.PlayerMove.OnDamaged: carries the same requirement as `HealthDown`, because it calls it.
- Game.PlayerMove.OnCollisionEnter2D: carries the same requirement as `HealthDown`, because a non-stomp contact calls it.
- Game.GameManager.NextStage: requires a non-negative `stageIndex` when a stage remains. With a negative index the source throws IndexOutOfRangeException at GameManager.cs:32 before changing anything; the model does not represent the exception.
- Progress.NextStageOf: carries the same requirement as `NextStage`, for the same reason.
- Game.PlayerMove.OnTriggerEnter2D: carries the same requirement as `NextStage`, because the finish flag calls it.
