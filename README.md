# Combat core of the top-down action prototype, in Dafny

`games.py` is a small frame-stepped combat simulation. A player moves, rolls and
attacks with light and heavy swings. The swings cost stamina, and the player
fights enemies that chase, strike, die and respawn. This project models the
rules under the drawing code:

- the entity damage and timer rules;
- the player's per-frame action step and attack hitbox;
- the enemy's per-frame behaviour (dead and respawn countdown, chase, melee, wander);
- the circle-overlap test and `clamp`;
- the main loop's hit resolution and the all-dead group respawn.

Layout, following the source's structure (one file per part of the game; the
geometry file also holds a tiny `Optional` module):

- `geometry.dfy`, module `Geometry`:
  - 2D vectors, `Clamp`, the arena rectangle and the circle-overlap test.
- `entity.dfy`, module `Entities`:
  - The `Entity` base class as a value snapshot `Body` and a mutable class `Entity`.
  - The countdown shared by every timer, `Countdown`.
  - The damage rule `ApplyDamage`.
- `player.dfy`, module `PlayerControl`:
  - `Player.update` as the pure step `PlayerStep`, built from its phases in source order.
  - The hitbox `AttackHitbox`.
  - The mutable class `Player`, whose `Update` is proved equal to `PlayerStep`.
- `enemy.dfy`, module `EnemyAI`:
  - `Enemy.update` as the pure step `EnemyStep`.
  - The mutable class `Enemy`, whose `Update` is proved equal to `EnemyStep`.
- `encounter.dfy`, module `Encounter`:
  - The hit loop: `Strike` and `StrikeAll` on values, and `World.ResolveHits` in place.
  - The alive count.
  - The group respawn, `World.GroupRespawn`, which rebuilds the enemy list.

Python's `Player(Entity)` and `Enemy(Entity)` inheritance becomes
composition. Each of `Player` and `Enemy` owns a `const body: Entity`, and
every method that mutates state is proved to produce `Step(old(State()), …)`
for the matching pure step function. The properties are stated as lemmas
about those pure functions.

Inputs the source reads from pygame or `random` are parameters:

- the key and mouse flags, in `Controls`;
- the frame time `dt`;
- the respawn delay drawn by `random.uniform(3.0, 6.0)`;
- the 1% wander re-roll and its direction, as `Option<Vec>`;
- the 1% group-respawn trigger;
- the spawn positions.

Normalised vectors are also given as parameters, because Dafny reals have no
square root:

- the movement direction, tied to the key vector by `Controls.WellFormed`;
- the chase direction;
- the knockback direction.

The enemy's range tests in the source compare true distances, `dist < 300` and
`dist > self.radius + player.radius + 6`. The model compares squared distances,
and `EnemyAI.RangeTestsAgree` shows the two forms agree. `circle_collide`
already compares squares in the source. `Geometry.CircleCollideIffTouching`
shows that its squared test is the boundary-inclusive test on the true
distance.

Behaviour of `games.py` worth noting, which the model keeps:

- A roll and an attack can start in the same frame (games.py:102-123).
- Knockback is applied even when the damage was rejected (games.py:247-252).
- An enemy's attack cooldown counts down only while the player is within
  300 units (games.py:183-192).
- Stamina regeneration looks at the rolling flag from before this frame's
  roll check (games.py:99-109).
- While rolling, the velocity stays the one set at roll start, even if the
  facing changes (games.py:109, 137).
- The knockback is not clamped, and a dead enemy's update returns before
  the clamp (games.py:179, 252). An enemy killed near an edge can therefore
  end up outside the playable rectangle (`Encounter.KnockbackLeavesArena`).

## Model

| member | source | states |
|---|---|---|
| Geometry.Clamp | games.py:42 | On `lo <= hi` the result lies in `[lo, hi]` and equals `x` when `x` is already inside. Below the range it is `lo`, above it is `hi`. On an empty interval it is `lo`, as `max(a, min(b, x))` gives. |
| Geometry.ClampToArena | games.py:141-142 | Clamping each coordinate into `[20, 1900] x [20, 1060]` lands inside the playable rectangle. A coordinate already in range is unchanged, and one outside goes to the near edge. |
| Geometry.CircleCollide | games.py:209-210 | No contract of its own; `Geometry.CircleCollideSymmetric` and `Geometry.CircleCollideIffTouching` carry its properties. |
| Geometry.CircleCollideSymmetric | games.py:209-210 | The overlap test does not depend on the order of the two circles. |
| Geometry.CircleCollideIffTouching | games.py:209-210 | For the true centre distance `d`, the squared test holds exactly when `d <= ra + rb`, so touching circles count as colliding. |
| Geometry.SquaresOrdered | games.py:183-184 | For non-negative reals, comparing squares (strictly or not) is the same as comparing the values. This justifies the squared distance tests. |
| Entities.Spawned | games.py:50-58 | A new entity is at rest, alive, at full health and vulnerable. It is sound when its radius and maximum health are positive. |
| Entities.Countdown | games.py:59-61 | A positive timer decreases by `dt` but never below 0, and reaches 0 exactly when `dt` covers it. A timer at or below 0 is untouched. With `dt >= 0` it never grows. |
| Entities.ApplyDamage | games.py:62-68 | A hit is accepted iff the entity is alive and not invulnerable. A rejected hit changes nothing. An accepted one lowers hp by exactly `amount`, sets invulnerability to 0.5 and makes the entity alive iff the new hp is positive. It changes nothing else. |
| Entities.TickInvulnBounds | games.py:59-61 | `update_timers` keeps the invulnerability timer in `[0, old value]` and touches no other field. |
| Entities.ApplyDamageSound | games.py:62-68 | Taking non-negative damage keeps the entity consistent: hp at most max, alive iff hp > 0, timer non-negative. |
| Entities.GracePeriodScenario | games.py:59-68 | After an accepted hit an immediate second hit is rejected. Once at least 0.5 s has been counted down, a surviving entity takes damage again. |
| Entities.ThreeHitsScenario | games.py:62-68 | An 80-hp enemy hit for 28 with the grace period respected has 52 and then 24 hp. It dies at -4 on the third hit. |
| Entities.TickInvuln | games.py:59-61 | No contract of its own; `Entities.TickInvulnBounds` and `Entities.Countdown` carry its properties. |
| Entities.Entity.constructor | games.py:51-58 | The constructed entity's state is `Spawned(pos, radius, maxHp)`. |
| Entities.Entity.UpdateTimers | games.py:59-61 | In place, the new state is the old one with the invulnerability timer counted down. |
| Entities.Entity.TakeDamage | games.py:62-68 | In place, the returned flag and the new state are exactly `ApplyDamage` of the old state. |
| PlayerControl.InitialPlayer | games.py:75-86 | No contract of its own; `PlayerControl.InitialPlayerInv` carries its properties. |
| PlayerControl.Face | games.py:95-97 | No contract of its own; `PlayerControl.PlayerStepFacing` (the facing is the input direction when a key is held, else the last one) and `PlayerControl.PreparedKeepsInv` (it stays a unit vector) carry its properties. |
| PlayerControl.Prepared | games.py:89-100 | No contract of its own; `PlayerControl.PreparedKeepsInv`, `PlayerControl.PlayerStepRoll` and `PlayerControl.PlayerStepStaminaLedger` carry its properties. |
| PlayerControl.TryRoll | games.py:102-109 | No contract of its own; `PlayerControl.TryRollCases` carries its properties. |
| PlayerControl.TryAttack | games.py:112-123 | No contract of its own; `PlayerControl.TryAttacksCases` carries its properties. |
| PlayerControl.TryAttacks | games.py:111-123 | No contract of its own; `PlayerControl.TryAttacksCases`, `PlayerControl.TryAttacksKeepsInv` and `PlayerControl.RollAndAttackTogether` carry its properties. |
| PlayerControl.Countdowns | games.py:125-135 | No contract of its own; `PlayerControl.CountdownsCases` and `PlayerControl.CountdownsKeepsInv` carry its properties. |
| PlayerControl.Steer | games.py:137-139 | No contract of its own; `PlayerControl.PlayerStepKeepsInv` shows it keeps the invariant, since it changes only the velocity. |
| PlayerControl.Integrate | games.py:140-142 | No contract of its own; `PlayerControl.PlayerStepInArena` carries its property. |
| PlayerControl.PlayerStep | games.py:88-142 | No contract of its own. Its properties are carried by `PlayerControl.PlayerStepInArena`, `PlayerControl.PlayerStepStaminaBounded`, `PlayerControl.PlayerStepStaminaLedger`, `PlayerControl.PlayerStepRoll`, `PlayerControl.PlayerStepInvulnNonIncreasing`, `PlayerControl.PlayerStepFacing` and `PlayerControl.PlayerStepKeepsInv`. |
| PlayerControl.Controls.RawMove | games.py:90-94 | No contract of its own; `PlayerControl.Controls.RawMoveNonzero` and `PlayerControl.Player.MoveInput` carry its properties. |
| PlayerControl.Controls.Move | games.py:95-96 | No contract of its own; `PlayerControl.Controls.MoveCases` carries its properties. |
| PlayerControl.Controls.MoveCases | games.py:95-96 | With no direction key held the movement vector is zero; otherwise it is the given direction, which on well-formed input is the normalised key vector. |
| PlayerControl.RollGuard | games.py:102-103 | No contract of its own; `PlayerControl.TryRollCases` and `PlayerControl.PlayerStepRoll` carry its properties. |
| PlayerControl.AttackGuard | games.py:112-119 | No contract of its own; `PlayerControl.TryAttacksCases` and `PlayerControl.PlayerStepStaminaLedger` carry its properties. |
| PlayerControl.Controls.RawMoveNonzero | games.py:90-95 | The key vector has squared length > 0 exactly when it is nonzero, so the facing changes only on real movement input. |
| PlayerControl.Regenerated | games.py:99-100 | While rolling, stamina is untouched. Otherwise it ends in `[0, 100]`, and it equals `stamina + 20*dt` when that is already in range. |
| PlayerControl.AttackHitbox | games.py:152-158 | A hitbox exists iff `attack_timer > 0`. Its radius is 48/1.6 = 30 and its centre is `pos + facing*(radius + 24)`. |
| PlayerControl.PlayerStepInArena | games.py:140-142 | After any update the player is inside the playable rectangle. |
| PlayerControl.PlayerStepStaminaBounded | games.py:99-123 | If stamina starts in `[0, 100]`, it stays in `[0, 100]` after an update. Regeneration is clamped and every debit is guarded by its own cost. |
| PlayerControl.PlayerStepStaminaLedger | games.py:99-123 | A frame's stamina is regeneration (judged by the pre-roll rolling flag) minus exactly 20 if the roll started, 12 if the light attack started and 28 if the heavy attack started. |
| PlayerControl.TryRollCases | games.py:102-109 | A roll starts iff the roll cooldown is over, roll is pressed and stamina >= 20. A started roll sets rolling, the 0.26 roll timer, the 0.8 cooldown, 0.28 invulnerability, `stamina - 20` and velocity `facing*420`, and leaves the rest alone. Otherwise the state is unchanged. |
| PlayerControl.PlayerStepRoll | games.py:89-135 | Over a whole update, the roll guard is judged on the regenerated stamina. A started roll ends the frame with 0.28 invulnerability and the roll timers counted down once, and is still rolling iff `dt < 0.26`. Without a new roll those timers only count down. |
| PlayerControl.PlayerStepFacing | games.py:95-97 | Over a whole update, the facing becomes the movement direction when a direction key is held and otherwise stays the last facing. The roll, attack, countdown and movement phases leave it alone. |
| PlayerControl.TryAttacksCases | games.py:111-123 | At most one attack starts, and light wins a tie. Light sets 0.18 / 0.45 / -12 and heavy sets 0.34 / 1.0 / -28. Nothing changes when neither starts, and body and roll state are never touched. |
| PlayerControl.RollAndAttackTogether | games.py:102-123 | With both cooldowns over and enough stamina, a roll and a light attack start in the same frame and cost 32 together. |
| PlayerControl.CountdownsCases | games.py:125-135 | The countdown phase keeps all four timers in `[0, old value]`. The roll ends, with the velocity zeroed, exactly when the roll timer counts down to 0. Otherwise rolling flag and body are untouched. |
| PlayerControl.PlayerStepInvulnNonIncreasing | games.py:89-109 | Without a new roll the player's invulnerability never grows and never goes negative. |
| PlayerControl.InitialPlayerInv | games.py:75-86 | The constructed player (radius 16, 120 hp, 100 stamina, timers 0, facing (1,0)) satisfies the player invariant. |
| PlayerControl.PlayerStepKeepsInv | games.py:88-142 | With a well-formed input, an update keeps the invariant. The invariant covers a sound body, stamina in `[0, 100]`, non-negative timers, unit facing and rolling iff the roll timer is positive. |
| PlayerControl.PreparedKeepsInv | games.py:89-100 | The timer, facing and regeneration phase keeps the player invariant when the input is well formed. |
| PlayerControl.TryAttacksKeepsInv | games.py:111-123 | The attack phase keeps the player invariant, because each debit is guarded by its cost. |
| PlayerControl.CountdownsKeepsInv | games.py:125-135 | The countdown phase keeps the player invariant, and in particular keeps "rolling iff roll timer > 0". |
| PlayerControl.PlayerRunKeepsInv | games.py:88-142 | The invariant holds along every run of well-formed frames. |
| PlayerControl.HitboxScenario | games.py:152-158 | Facing (1,0) at the origin, the hitbox is centred at (40,0) with radius 30 and reaches an enemy of radius 16 on that centre. |
| PlayerControl.Player.constructor | games.py:75-86 | The constructed player's state is `InitialPlayer(pos)`. |
| PlayerControl.Player.Update | games.py:88-142 | In place, the new state of the player and its entity is `PlayerStep(old state, controls, dt)`. |
| PlayerControl.Player.Prepare | games.py:89-100 | The invulnerability countdown, facing update and regeneration phase, in place. It returns the normalised movement vector. |
| PlayerControl.Player.MoveInput | games.py:90-94 | The key flags build the raw movement vector: -1 for up or left, +1 for down or right, summed per axis. |
| PlayerControl.Player.StartRoll | games.py:102-109 | The roll phase, in place, equals `TryRoll`. |
| PlayerControl.Player.StartAttacks | games.py:111-123 | The attack phase, in place, equals `TryAttacks`, including the `attacking` flag. |
| PlayerControl.Player.CountDown | games.py:125-135 | The countdown phase, in place, equals `Countdowns`. |
| PlayerControl.Player.Move | games.py:137-142 | Steering, integration and clamping, in place, equal `Integrate(Steer(...))`. |
| EnemyAI.InitialEnemy | games.py:161-167 | No contract of its own; `EnemyAI.InitialEnemyInv` carries its properties. |
| EnemyAI.Revive | games.py:171-179 | No contract of its own; `EnemyAI.EnemyStepDead` and `EnemyAI.RevivesWithinDelay` carry its properties. |
| EnemyAI.Chase | games.py:184-186 | No contract of its own; `EnemyAI.EnemyStepKeepsInv` and `EnemyAI.EnemyStepStrike` (the player is untouched) carry its properties. |
| EnemyAI.Melee | games.py:187-190 | No contract of its own; `EnemyAI.EnemyStepStrike` carries its properties. |
| EnemyAI.Wander | games.py:193-198 | No contract of its own; `EnemyAI.CooldownFrozenOutOfRange` and `EnemyAI.EnemyStepKeepsInv` carry its properties. |
| EnemyAI.ClampEnemy | games.py:199-200 | No contract of its own; `EnemyAI.EnemyStepInArena` carries its property. |
| EnemyAI.EnemyStep | games.py:169-200 | No contract of its own. Its properties are carried by `EnemyAI.EnemyStepDead`, `EnemyAI.EnemyStepInArena`, `EnemyAI.CooldownFrozenOutOfRange`, `EnemyAI.EnemyStepStrike`, `EnemyAI.EnemyStepTimers`, `EnemyAI.EnemyStepKeepsInv`, `EnemyAI.AliveStaysAlive` and `EnemyAI.RevivesWithinDelay`. |
| EnemyAI.MeleeReach | games.py:184 | No contract of its own; `EnemyAI.RangeTestsAgree` and `EnemyAI.EnemyStepStrike` (which writes it out as `radius + player.radius + 6`) carry its properties. |
| EnemyAI.RangeTestsAgree | games.py:181-184 | The squared comparisons are exactly `dist < 300` and `dist > self.radius + player.radius + 6` on the true distance. |
| EnemyAI.EnemyStepDead | games.py:170-179 | A dead enemy does not move, attack or touch the player. With no delay pending it takes the drawn delay and stays dead. Otherwise the delay shrinks by `dt`, and the enemy revives at full health exactly when the delay reaches <= 0. |
| EnemyAI.EnemyStepInArena | games.py:199-200 | A living enemy ends its update inside the playable rectangle. |
| EnemyAI.CooldownFrozenOutOfRange | games.py:183-198 | With the player at distance >= 300 the attack cooldown does not count down and the player is untouched. |
| EnemyAI.EnemyStepStrike | games.py:183-192 | The player is changed only by a strike in melee range, off cooldown, with the player vulnerable. The strike is exactly `take_damage(12)`, and the cooldown restarts at 1.0 and is counted down in the same frame. |
| EnemyAI.EnemyStepTimers | games.py:170-192 | For a living enemy, invulnerability counts down every frame and the respawn delay is untouched. Within 300 units the attack cooldown counts down in every frame without a strike, chase or blocked melee alike. With `dt >= 0` the cooldown never rises except through the strike's reset to 1.0. |
| EnemyAI.InitialEnemyInv | games.py:161-167 | A constructed enemy (radius 16, 80 hp, speed 100) satisfies the enemy invariant. |
| EnemyAI.EnemyStepKeepsInv | games.py:169-200 | Every enemy update keeps the enemy invariant and keeps the player's body sound. |
| EnemyAI.AliveStaysAlive | games.py:169-200 | No run of enemy updates kills a living enemy. |
| EnemyAI.RevivesWithinDelay | games.py:171-179 | A dead enemy with a pending delay is alive after any run of positive frames whose total time covers the delay. |
| EnemyAI.Enemy.constructor | games.py:161-167 | The constructed enemy's state is `InitialEnemy(pos)`. |
| EnemyAI.Enemy.Update | games.py:169-200 | In place, the new states of the enemy and of the player's entity are exactly `EnemyStep` of the old ones. |
| EnemyAI.Enemy.CountRespawn | games.py:171-179 | The dead branch, in place, equals `Revive`. |
| EnemyAI.Enemy.Engage | games.py:183-192 | The within-300 branch, in place: chase or melee, then the cooldown countdown. |
| EnemyAI.Enemy.Roam | games.py:193-198 | The wander branch, in place, equals `Wander`. |
| Encounter.Strike | games.py:248-252 | No contract of its own; `Encounter.StrikeCases` and `Encounter.KnockbackLeavesArena` carry its properties. |
| Encounter.Knockback | games.py:250-252 | No contract of its own; `Encounter.StrikeCases` carries its properties. |
| Encounter.StrikeAll | games.py:244-252 | No contract of its own; `Encounter.StrikeAllNeverRevives`, `Encounter.StrikeAllKeepsSound` and `Encounter.World.ResolveHits` carry its properties. |
| Encounter.StrikeCases | games.py:247-252 | An enemy is hit only when alive and overlapping the hitbox. On a hit, the damage rule decides hp, invulnerability and aliveness. The knockback is applied whenever the enemy is off the player's centre, even if the damage was rejected. |
| Encounter.KnockbackLeavesArena | games.py:179-252 | An 80-max-hp enemy with 20 hp at (1895, 540), hit from a player at (1850, 540), dies and is pushed to (1907, 540). That is outside the rectangle, and it is still outside after its next update, because neither the knockback nor the dead branch clamps. |
| Encounter.AliveCount | games.py:270 | The alive count never exceeds the number of enemies. |
| Encounter.AliveCountZeroIff | games.py:270-273 | The count is 0 exactly when every enemy is dead. |
| Encounter.AliveCountAll | games.py:274-276 | A wave of living enemies counts as fully alive. |
| Encounter.AliveCountMono | games.py:270 | Pointwise fewer living enemies means a count no larger. |
| Encounter.StrikeAllNeverRevives | games.py:244-252 | The hit loop never revives an enemy, leaves dead enemies exactly as they were, and never raises the alive count. |
| Encounter.StrikeAllKeepsSound | games.py:244-252 | The hit loop keeps every enemy body consistent. |
| Encounter.StrikeBody | games.py:248-252 | One pass of the hit loop, in place on an enemy's entity, equals `Strike`. |
| Encounter.World.constructor | games.py:212-213 | The game starts with the player at the arena centre in its initial state and four fresh enemies at the given positions, each owning its own entity. |
| Encounter.World.Populate | games.py:274-276 | Rebuilding the list yields one fresh enemy per spawn position in order, each in its initial state, and no two share an entity. |
| Encounter.World.ResolveHits | games.py:244-252 | In place, the enemies' bodies become `StrikeAll` of the old bodies under the player's hitbox. Without a hitbox nothing changes. |
| Encounter.World.GroupRespawn | games.py:270-276 | When no enemy is alive and the trigger fires, the list becomes four fresh enemies at the given positions, all alive. Otherwise the list is unchanged. |

## Left out

- EnemyAI.EnemyStepInArena: holds only for an enemy alive at the start of the update. The source does not keep every enemy inside the arena: the knockback is unclamped and the dead branch skips the clamp (games.py:179, 252), as `Encounter.KnockbackLeavesArena` shows.
- Rendering and the HUD (`draw_bar`, `draw_health`, both `draw` methods, `draw_hud`, the grid and text blits). They only draw.
- pygame initialisation, the clock, the event pump and key or mouse polling. These are I/O; the model takes `dt` and the input flags as parameters.
- Random number distributions. The drawn values and the 1% triggers are parameters, and the model does not restrict the respawn delay to `[3, 6]` or the spawn positions to the `randint` ranges.
- `normalize`, `length`, `cos` and `sin`. The movement, chase, wander and knockback directions are given vectors. Only the movement direction is tied to its source vector (`Controls.WellFormed`).
- The knockback magnitude is not proved to be 12. `Strike` scales the given direction by 12, but nothing requires that direction to be a unit vector.
- `PlayerControl.AttackHitbox` uses `facing` where the source uses `facing.normalize()`. The two agree because the facing is always a unit vector (`PlayerInv`).
- Floating-point rounding. Every quantity is a mathematical real.
- `Entity.__init__`'s defaults (radius 18, 100 hp) are always overwritten by the subclasses. The model's constructor takes the radius and maximum health directly. The unused `source` parameter of `take_damage` is dropped.
- The main loop's enemy update loop (`for e in enemies: e.update(dt, player)`) is not modelled as one method. Each `Enemy.Update` is, and the hit loop and group respawn are.
- The frame order of the main loop as a whole, `FPS` and the quit handling are left out. They are control flow around the modelled operations.
