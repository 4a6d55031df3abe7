# Character controller and health pool, modelled in Dafny

This project models the game-logic core of a small Unity third-person character controller.

- **Health pool** (`PlayerHealth`). The repository has two copies: `Assets/PlayerHealth.cs` and `Assets/Scripts/PlayerHealth.cs`.
  - Each holds an integer `currentHealth` and mirrors it into a UI slider.
  - `TakeDamage` subtracts, clamps to `[0, maxHealth]` and calls `Die` whenever the result is 0 or less.
  - In the `Scripts` copy, `Die` shows the game-over screen, pauses the game and releases the cursor. In the other copy it only writes a log line.
- **Movement controller** (`ThirdPersonMovement`). There are also two copies, and they behave differently. Each `Update` is one step of a state machine over the grounded flag, the vertical velocity, the crouch posture and the speed.
  - `Assets/ThirdPersonMovement.cs` has a death gate. It applies fall damage based on velocity, computed from the velocity recorded before gravity, and snaps grounded velocity to -0.5.
  - `Assets/Scripts/ThirdPersonMovement.cs` detects landing and take-off edges. It applies fall damage based on height, measured from where the fall began, and snaps grounded velocity to -2. Its gravity multiplier depends on the direction of travel and on whether jump is held.

Module layout, one module per source file plus shared helpers:

| file | module | models |
|---|---|---|
| `unity_math.dfy` | `UnityMath` | `Mathf.Clamp`, `Clamp01`, `Abs`, `Lerp`, `InverseLerp`, `RoundToInt` (round half to even, as `Math.Round` does) |
| `health_pool.dfy` | `HealthPool` | the subtract-and-clamp rule both `TakeDamage` copies share, and runs of hits |
| `health_scripts.dfy` | `ScriptsHealth` | `Assets/Scripts/PlayerHealth.cs` as a class |
| `health_root.dfy` | `RootHealth` | `Assets/PlayerHealth.cs` as a class |
| `movement_root.dfy` | `RootMovement` | `Assets/ThirdPersonMovement.cs`: pure functions for one frame, lemmas about them, and the class that performs the frame in place |
| `movement_scripts.dfy` | `ScriptsMovement` | `Assets/Scripts/ThirdPersonMovement.cs`, in the same shape |
| `wrappers.dfy` | `Wrappers` | `Option`: whether a `TakeDamage` call was made, and with what |

Each movement module describes one frame twice:
- A pure function, `Stepped`, gives the new field values. `StepDamage` / `LandingHit` give the damage passed to `TakeDamage`, if any.
- The class `ThirdPersonMovement` runs the source's methods in place. Its `Update` is proved to leave `State()` equal to `Stepped(old(State()), …)` and the attached pool equal to `HealthPool.Charged(…)`.

The properties are proved as lemmas about the pure functions.

Engine inputs are parameters: the ground sphere probe, the button edges, "jump held", `Time.deltaTime` and the character's height. `GetComponent` lookups become constructor parameters. `Start` is folded into the movement constructors. For `PlayerHealth`, `Start` is its own method, because the engine runs it after creation.

`PlayerHealth` may be missing:
- In `Assets/ThirdPersonMovement.cs`, a missing `PlayerHealth` disables both the death gate and the damage call, since the source checks for null.
- In `Assets/Scripts/ThirdPersonMovement.cs`, the damage call has no null check. A landing that would cause damage then fails, and the rest of that frame does not run. The model makes `GroundCheck` return `false` in that case, and `Update` stops.

Facts about the code that the model keeps as written:
- `isFalling` is set on the take-off edge, so it is also true while rising after a jump. `ScriptsMovement.FallingMeansAirborne` states what every frame keeps: falling implies airborne.
- The two movement copies use different fall-damage rules. `Assets/ThirdPersonMovement.cs` charges by landing velocity and `Assets/Scripts/ThirdPersonMovement.cs` by fall height. Both are modelled.
- With `maxHealth == 0` every hit calls `Die`, so `Die` runs exactly when `old - damage <= 0` only when `maxHealth > 0`.
- `fallStartY` starts at 0 and is only set on a take-off edge. The first landing after spawn is therefore measured from height 0, not from the spawn height (`ScriptsMovement.SpawnFallMeasuredFromZero`).

## Model

| member | source | states |
|---|---|---|
| `UnityMath.Clamp` | Assets/Scripts/PlayerHealth.cs:22 | With ordered bounds the result lies within them. A value already inside is returned unchanged. A value below `min` gives `min`, and one above an ordered `max` gives `max`. |
| `UnityMath.ClampMonotone` | Assets/ThirdPersonMovement.cs:218 | With ordered bounds, clamping preserves the order of the values. |
| `UnityMath.Clamp01` | Assets/Scripts/ThirdPersonMovement.cs:73-74 | The result lies in [0, 1] and equals the argument when that is already in [0, 1]. |
| `UnityMath.Abs` | Assets/ThirdPersonMovement.cs:216-217 | The result is non-negative and is the argument or its negation. |
| `UnityMath.Lerp` | Assets/Scripts/ThirdPersonMovement.cs:74 | Unity's `a + (b - a) * Clamp01(t)`: a parameter at or below 0 gives exactly `a` and one at or above 1 gives exactly `b`. The bound and monotonicity are `LerpWithin` and `LerpMonotone`. |
| `UnityMath.LerpWithin` | Assets/Scripts/ThirdPersonMovement.cs:74 | With `a <= b` the interpolated value lies in [a, b], for any parameter, because the parameter is clamped. |
| `UnityMath.LerpMonotone` | Assets/Scripts/ThirdPersonMovement.cs:74 | With `a <= b`, a larger parameter never gives a smaller value. |
| `UnityMath.InverseLerp` | Assets/Scripts/ThirdPersonMovement.cs:73 | The result lies in [0, 1]. It is 0 at or below `a` and 1 at or above `b` when `a < b`, and 0 when `a == b`. |
| `UnityMath.InverseLerpMonotone` | Assets/Scripts/ThirdPersonMovement.cs:73 | With `a < b`, a larger value never gives a smaller parameter. |
| `UnityMath.RoundToInt` | Assets/Scripts/ThirdPersonMovement.cs:74 | The result is within 1/2 of the argument and is the argument itself when that is an integer. |
| `UnityMath.RoundToIntMonotone` | Assets/ThirdPersonMovement.cs:218 | Rounding preserves the order of its arguments, halfway cases included. |
| `UnityMath.RoundToIntOfInt` | Assets/Scripts/ThirdPersonMovement.cs:74 | Rounding an integer-valued real gives that integer. |
| `HealthPool.AfterDamage` | Assets/Scripts/PlayerHealth.cs:19-29 | With `maxHealth >= 0` the new health lies in [0, maxHealth]. With `maxHealth > 0` it is 0 or less exactly when `old - damage <= 0`, the condition for `Die`. It equals `old - damage` whenever that is already in range. |
| `HealthPool.HealingIsCapped` | Assets/Scripts/PlayerHealth.cs:21-22 | Negative damage raises health by its magnitude, capped at `maxHealth`, never lowering it. |
| `HealthPool.DepletedStaysDepleted` | Assets/Scripts/PlayerHealth.cs:21-28 | From 0, any non-negative damage leaves health at 0, so `Die` runs again. |
| `HealthPool.HitsAccumulate` | Assets/Scripts/PlayerHealth.cs:19-29 | A run of non-negative hits on a valid pool leaves `max(0, current - total)`. |
| `ScriptsHealth.PlayerHealth.constructor` | Assets/Scripts/PlayerHealth.cs:6-10 | Before `Start`: health 0, slider at its defaults, no game-over screen shown, not paused. |
| `ScriptsHealth.PlayerHealth.Start` | Assets/Scripts/PlayerHealth.cs:12-17 | `currentHealth == maxHealth` and the slider shows it out of `maxHealth`; the invariant `Valid()` holds. |
| `ScriptsHealth.PlayerHealth.TakeDamage` | Assets/Scripts/PlayerHealth.cs:19-29 | `Took(Some(damage))`: health becomes `AfterDamage(old, maxHealth, damage)` and the slider value equals it. `maxHealth` is unchanged and `Valid()` is kept. `Die` runs exactly when the new health is 0 or less, and then the game is paused, the cursor released and the game-over screen shown if assigned. Otherwise those flags are unchanged. |
| `ScriptsHealth.PlayerHealth.UpdateHealthUI` | Assets/Scripts/PlayerHealth.cs:31-34 | The slider value equals `currentHealth`; nothing else changes. |
| `ScriptsHealth.PlayerHealth.Die` | Assets/Scripts/PlayerHealth.cs:36-45 | Shows the game-over screen exactly when one is assigned, pauses the game, releases the cursor, and leaves the pool alone. |
| `RootHealth.PlayerHealth.constructor` | Assets/PlayerHealth.cs:6-9 | Before `Start`: health 0, slider at its defaults. |
| `RootHealth.PlayerHealth.Start` | Assets/PlayerHealth.cs:11-16 | `currentHealth == maxHealth`, the slider shows it, and `Valid()` holds. |
| `RootHealth.PlayerHealth.TakeDamage` | Assets/PlayerHealth.cs:18-28 | `Took(Some(damage))`: health becomes `AfterDamage(old, maxHealth, damage)` and the slider equals it. `maxHealth` is unchanged, `Valid()` is kept, and `Die` runs exactly when the new health is 0 or less. |
| `RootHealth.PlayerHealth.UpdateHealthUI` | Assets/PlayerHealth.cs:30-33 | The slider value equals `currentHealth`. |
| `RootHealth.PlayerHealth.Die` | Assets/PlayerHealth.cs:35-39 | Changes no field of the component; only the count of deaths grows. |
| `RootMovement.FallDamage` | Assets/ThirdPersonMovement.cs:214-219 | With `maxFallDamage >= 0` the damage lies in [0, maxFallDamage]. |
| `RootMovement.FallDamageMonotone` | Assets/ThirdPersonMovement.cs:214-219 | For downward velocities, a faster landing never does less damage. |
| `RootMovement.DeathGateFreezes` | Assets/ThirdPersonMovement.cs:63-72 | With an attached pool at 0 or below, a frame leaves every modelled field unchanged and requests no damage. |
| `RootMovement.RecordedVelocityIsPostInput` | Assets/ThirdPersonMovement.cs:74-84 | On a live frame, `isGrounded` is this frame's probe. `lastYVelocity` is the jump force when jump was pressed on a grounded frame, and the previous velocity otherwise, i.e. it is taken after input and before gravity. |
| `RootMovement.AirborneJumpIgnored` | Assets/ThirdPersonMovement.cs:195-212 | When the probe reports no ground, a jump press changes neither the frame nor the damage. |
| `RootMovement.GroundedSnap` | Assets/ThirdPersonMovement.cs:127-131 | On a live grounded frame, a downward velocity becomes exactly -0.5 and a non-negative one is kept, so the frame ends at -0.5 or above. |
| `RootMovement.AirborneIntegration` | Assets/ThirdPersonMovement.cs:133-137 | On a live airborne frame the velocity becomes `v + gravity*dt`. With `gravity <= 0` and `dt >= 0` it never increases. |
| `RootMovement.DamageOnlyOnFastGroundedFrames` | Assets/ThirdPersonMovement.cs:114-125 | Damage is requested iff a pool is attached, the frame is live, the probe reports ground and the recorded velocity is below the threshold. The amount is `FallDamage` of that velocity. |
| `RootMovement.NoDamageWhileResting` | Assets/ThirdPersonMovement.cs:112-138 | With a threshold at or below -0.5, a frame that follows a live grounded frame and has no jump press requests no damage. |
| `RootMovement.CrouchTwice` | Assets/ThirdPersonMovement.cs:181-193 | Toggling twice restores the posture. One toggle always leaves the height, centre and speed preset of the new posture. Toggling twice is the identity when those already matched the posture. |
| `RootMovement.DeathIsTerminal` | Assets/ThirdPersonMovement.cs:60-72 | From an empty pool, any sequence of frames leaves the frame and the pool unchanged. |
| `RootMovement.RunKeepsPool` | Assets/ThirdPersonMovement.cs:114-125 | Over any sequence of frames charging an attached pool, health stays in [0, maxHealth]. |
| `RootMovement.ThirdPersonMovement.constructor` | Assets/ThirdPersonMovement.cs:34-58 | The settings are the inspector values with `originalSpeed` copied from `speed`. The fields start at not grounded, zero velocities, standing, with the given controller size. |
| `RootMovement.ThirdPersonMovement.TriggerJump` | Assets/ThirdPersonMovement.cs:195-212 | The velocity becomes the jump force only when grounded; nothing else changes. |
| `RootMovement.ThirdPersonMovement.ToggleCrouch` | Assets/ThirdPersonMovement.cs:181-193 | Flips the posture and sets height 1.0/2.0, centre 0.5/1.0 and speed `originalSpeed*0.5`/`originalSpeed`. |
| `RootMovement.ThirdPersonMovement.HandleInput` | Assets/ThirdPersonMovement.cs:96-110 | Jump press first, then crouch press, as `InputHandled`. |
| `RootMovement.ThirdPersonMovement.CalculateFallDamage` | Assets/ThirdPersonMovement.cs:214-219 | Returns `FallDamage`, which lies in [0, maxFallDamage]. |
| `RootMovement.ThirdPersonMovement.HandleGravityAndFallDamage` | Assets/ThirdPersonMovement.cs:112-138 | The fields become `GravityApplied`. The attached pool is charged exactly the `FallDamageDue`. The whole pool is as `TakeDamage` leaves it (`Took`), with slider and death count, and is unchanged when no damage is due. The pool's `Valid()` is kept. |
| `RootMovement.ThirdPersonMovement.Update` | Assets/ThirdPersonMovement.cs:60-94 | The fields become `Stepped` of the old fields, the inputs and the pool as read at the gate. The attached pool is charged exactly `StepDamage`, so every lemma about `Stepped` and `StepDamage` applies to the component. The whole pool is as `TakeDamage` leaves it (`Took`), is unchanged on a frame without damage, and keeps `Valid()`. |
| `ScriptsMovement.LandingDamage` | Assets/Scripts/ThirdPersonMovement.cs:70-75 | With `maxFallDamage >= 0` the rounded interpolated damage lies in [0, maxFallDamage]. |
| `ScriptsMovement.NoDamageWithinMinHeight` | Assets/Scripts/ThirdPersonMovement.cs:70-71 | A landing after a fall no longer than `minFallDamageHeight` makes no `TakeDamage` call at all, not even one with 0 damage. |
| `ScriptsMovement.FullDamageBeyondMaxHeight` | Assets/Scripts/ThirdPersonMovement.cs:73-74 | With `min < max`, a fall of at least `maxFallDamageHeight` does exactly `maxFallDamage`. |
| `ScriptsMovement.LandingDamageMonotone` | Assets/Scripts/ThirdPersonMovement.cs:73-74 | With `min < max` and `maxFallDamage >= 0`, a longer fall never does less damage. |
| `ScriptsMovement.SixUnitFall` | Assets/Scripts/ThirdPersonMovement.cs:67-76 | With heights 3 and 10 and at most 50 damage, landing after a fall of 6 requests exactly 21. |
| `ScriptsMovement.OneHitPerLanding` | Assets/Scripts/ThirdPersonMovement.cs:64-79 | After a frame whose probe reports ground, the next frame requests no damage whatever it reports, so there is at most one hit per landing. |
| `ScriptsMovement.TakeOffRecordsHeight` | Assets/Scripts/ThirdPersonMovement.cs:81-86 | On the take-off edge the fall start becomes the current height and `isFalling` becomes true. |
| `ScriptsMovement.LandingEndsFall` | Assets/Scripts/ThirdPersonMovement.cs:67-79 | A completed landing sets `isFalling` to false and keeps the fall start. |
| `ScriptsMovement.FallingMeansAirborne` | Assets/Scripts/ThirdPersonMovement.cs:62-92 | Every completed frame preserves `isFalling ==> !isGrounded`. |
| `ScriptsMovement.SpawnFallMeasuredFromZero` | Assets/Scripts/ThirdPersonMovement.cs:62-76 | From the initial fields, a first landing at height `y` is measured as a fall of `-y`. |
| `ScriptsMovement.GravityFollowsMultiplier` | Assets/Scripts/ThirdPersonMovement.cs:115-136 | After the grounded reset, each branch adds `gravity * multiplier * dt`. The multiplier is `fallMultiplier` for downward velocity, `lowJumpMultiplier` when rising with jump released, and 1 otherwise. Only the velocity changes. |
| `ScriptsMovement.AirborneJumpIgnored` | Assets/Scripts/ThirdPersonMovement.cs:95-100 | When the probe reports no ground, a jump press changes nothing. |
| `ScriptsMovement.GroundedJumpLaunches` | Assets/Scripts/ThirdPersonMovement.cs:95-113 | A jump press on a grounded frame sets the velocity to `jumpForce`. Gravity then applies with the multiplier for jump held or released. |
| `ScriptsMovement.GroundedDescent` | Assets/Scripts/ThirdPersonMovement.cs:88-125 | On a grounded frame starting downward with no jump press, the velocity ends at exactly `-2 + gravity*fallMultiplier*dt`. |
| `ScriptsMovement.CrouchTwice` | Assets/Scripts/ThirdPersonMovement.cs:174-181 | Toggling twice restores the posture. One toggle leaves the preset of the new posture. Toggling twice is the identity when the preset already matched. |
| `ScriptsMovement.ThirdPersonMovement.constructor` | Assets/Scripts/ThirdPersonMovement.cs:38-51 | The fields start as `Initial`: not grounded, zero velocity, standing at `originalSpeed`, fall start 0, not falling. |
| `ScriptsMovement.ThirdPersonMovement.GroundCheck` | Assets/Scripts/ThirdPersonMovement.cs:62-92 | Completes unless a damaging landing meets a missing pool. On completion the fields become `GroundChecked` and the pool is charged exactly `LandingHit`. The whole pool, including the pause, cursor and game-over flags of a fatal landing, is as `TakeDamage` leaves it (`Took`), and is unchanged without a landing hit. The pool's `Valid()` is kept. Otherwise only the grounded flag has changed. |
| `ScriptsMovement.ThirdPersonMovement.HandleInput` | Assets/Scripts/ThirdPersonMovement.cs:95-106 | A jump press counts only when grounded; then the crouch press, as `InputHandled`. |
| `ScriptsMovement.ThirdPersonMovement.Jump` | Assets/Scripts/ThirdPersonMovement.cs:108-113 | The velocity becomes `jumpForce`; nothing else changes. |
| `ScriptsMovement.ThirdPersonMovement.ApplyGravity` | Assets/Scripts/ThirdPersonMovement.cs:115-136 | The fields become `GravityApplied`. |
| `ScriptsMovement.ThirdPersonMovement.ToggleCrouch` | Assets/Scripts/ThirdPersonMovement.cs:174-181 | Flips the posture and sets the height, centre and speed presets. |
| `ScriptsMovement.ThirdPersonMovement.Update` | Assets/Scripts/ThirdPersonMovement.cs:53-60 | The fields become `Stepped` of the old fields and the inputs, and the pool is charged exactly `LandingHit`. The whole pool, including a fatal landing's pause, cursor and game-over flags, is as `TakeDamage` leaves it (`Took`), and the pool's `Valid()` is kept. The ground check runs before input and gravity, and a failed damage call ends the frame. |

## Left out

- Floating point: `float` is modelled as exact `real`, so single-precision rounding (for example of `-9.81f * Time.deltaTime`) is not modelled. A damage value whose float result falls near a rounding boundary may differ by one from the real-number result.
- UnityMath.RoundToInt: the `(int)` cast of a float outside the 32-bit range is not modelled; the model returns the unbounded integer.
- Integer width: health and damage are unbounded integers. `currentHealth - damage` overflowing 32 bits is not modelled.
- Horizontal movement and turning (`HandleMovement`, `MovePlayer`): trigonometry, `SmoothDampAngle` and `controller.Move` collision resolution belong to the engine. The character's height is a per-frame input instead.
- Animation (`Animator.SetBool` / `SetTrigger`), `Debug.Log` and `OnDrawGizmosSelected`: output sinks that do not affect state. The `Scripts` movement copy is assumed to have its `Animator` and `CharacterController` attached. A missing `Animator` would make `Jump`, `ToggleCrouch` and `UpdateAnimations` fail part-way, which is not modelled.
- Unassigned `healthSlider`: both `PlayerHealth` copies assume the slider is assigned. Without one, `Start` (Assets/Scripts/PlayerHealth.cs:15, Assets/PlayerHealth.cs:14) and `UpdateHealthUI` (Assets/Scripts/PlayerHealth.cs:33, Assets/PlayerHealth.cs:32) would throw. A throw inside `TakeDamage` comes after the clamp and before `Die`, so health could reach 0 with no `Die` call, and in the `Scripts` copy no pause and no game-over screen. This is not modelled.
- The root movement copy assumes its `CharacterController` is attached. `ToggleCrouch` writes `controller.height` and `controller.center` without a null check (Assets/ThirdPersonMovement.cs:186-187). A missing controller would make it fail after the posture flips; this is not modelled.
- Start-up wiring: the `GetComponent` lookups and the creation of a `GroundCheck` object. The sibling `PlayerHealth` is a constructor argument.
- Engine globals: the `Scripts` `Die` effects are kept as flags. `Time.timeScale = 0` becomes `paused`, the cursor unlock becomes `cursorReleased`, and `SetActive(true)` becomes `gameOverShown`. The effect of a paused clock on later frames is only that their `dt` input is 0.
- `UpdateAnimations` in both movement copies: it only feeds the animator.
- Camera, camera switching, triggers and menus (`TPcamera.cs`, `FPCamera.cs`, `CameraSwitcher.cs`, `Trigger.cs`, `MainMenu.cs`): engine glue and floating-point camera numerics.
- The engine's choice of which `PlayerHealth` copy a movement copy finds is not part of this model. The root copies are paired with each other, and so are the `Scripts` copies.
