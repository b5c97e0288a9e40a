# VOID-SURVIVOR in Dafny

A Dafny model of the simulation core of VOID-SURVIVOR, a browser survival
shooter. The player moves across a canvas, enemies arrive in waves and
weapons fire on their own. Kills drop experience and health. Level-ups
offer upgrades, and a finished run pays credits into a meta shop whose
permanent upgrades are kept in local storage.

Each module follows one part of the program.

| module | file | models |
|---|---|---|
| `Types` | types.dfy | `types.ts`: the entities; the player record as a class updated in place |
| `Sprites` | sprites.dfy | the frame counts of the sprite sheets in `systems/RenderSystem.ts` that the simulation reads |
| `Util` | util.dfy | filter, count, stable sort and take, with their lemmas |
| `Waves` | waves.dfy | `getWaveConfig`, the spawn schedule, the type roll, the stat table and the spawn ring of `systems/GameLoop.ts` |
| `Combat` | combat.dfy | the damage, armour, ability and animation rules shared by the frame's stages |
| `GameLoop` | world.dfy | class `World`: the refs `updateGame` works on; the director, spawner, movement and ability stages |
| `Weapons` | weapons.dfy | `updateWeapons` |
| `Projectiles` | projectiles.dfy | `updateProjectiles` |
| `Enemies` | enemies.dfy | `updateEnemies` |
| `Pickups` | loot.dfy | `updateLoot` |
| `Effects` | effects.dfy | `updateParticles`, `updateDamageIndicators`, `updateHazards` |
| `Frame` | frame.dfy | `updateGame`: the stages in order |
| `Canvas` | canvas.dfy | the frame driver of `components/GameCanvas.tsx`: gating, cleanup, display sync, decay, map change |
| `Upgrades` | upgrades.dfy | `getStarterWeapon`, `UPGRADES_POOL` and the level-up offer of `App.tsx` |
| `Meta` | meta.dfy | `META_UPGRADES`, the shop's price curve, `MAP_CONFIGS` credits and the starting stats of `App.tsx` |
| `Storage` | storage.dfy | `services/storageService.ts`: leaderboard and profile |
| `AppShell` | app.dfy | class `App`: the handlers of `App.tsx` |

Entities that are values (enemies, projectiles, loot, particles, damage
numbers, hazards) are datatypes held in `seq` fields of `World`. Each
stage's loop runs over a local copy of a list and is proved against a
specification function. The player record is a `Player` object whose
methods update its fields. The world and the shell share it.

Outside influences are parameters:

- `Math.random()` is a stream `random: nat -> real` of values in [0, 1), read through a draw counter.
- `Math.atan2`, `Math.cos` and `Math.sin` are supplied as a `Geometry` value.
- `Date.now()` is a `now` string.
- The input is a normalised direction and the state of the ability key.
- The callbacks `onLevelUp`, `onGameOver` and `triggerVoidEvent`, and the boss warning, are recorded as `World.events`.

Numbers are unbounded reals and integers. `Math.floor` is `.Floor` and
`Math.ceil` is `Util.Ceil`. The one place where double rounding changes a
result the model states is the shop's price: `Meta.Cost` gives the prices
the doubles give, one credit below the exact product at Engine Tuning
ranks 1 and 2 and Plating Armor rank 3.

Where the code and the written description of the game differ, the model
follows the code:

- The ability counters count down only while positive (`systems/GameLoop.ts:205-206`), not unconditionally. Cooldowns become fractional after Flux Capacitor (`App.tsx:136`), so `abilityTimer` ends in (-1, 0] rather than at 0. The player invariant states `abilityTimer > -1`.
- Health is never clamped at zero. Every hit subtracts, so hit points go negative.
- Orbitals are topped up to the weapon's count but never removed. The owned count after the stage is the larger of the count before and `projectileCount`.
- The enemy and projectile records carry fields that `types.ts` does not declare but the loop uses: animation state, `rewardsProcessed`, `ownerId` and the `melee` behaviour.

## Model

| member | source | states |
|---|---|---|
| `Types.Player.constructor` | App.tsx:405-434 | a new player: the given position and stats, full health, level 1, 0 of 100 experience, the dash ready, one weapon |
| `Types.Player.Hurt` | systems/GameLoop.ts:461-463 | health drops by exactly the damage; the hurt animation starts at frame 0; the player invariant is kept |
| `Types.Player.StartAbility` | systems/GameLoop.ts:279-291 | the recharge restarts at the cooldown and the ability runs for the given duration |
| `Types.Player.StartAttack` | systems/GameLoop.ts:379-385 | the player faces the given side and the attack animation starts at frame 0 |
| `Types.Player.SetWeaponTimer` | systems/GameLoop.ts:314 | only that weapon's timer changes |
| `Sprites.KnightFrames` | systems/RenderSystem.ts:9-15 | the knight sheet's frame count per state |
| `Sprites.EnemyFrames` | systems/RenderSystem.ts:18-37 | orc, skeleton and wizard frame counts per state; the orc sheet is the fallback |
| `Waves.GetWaveConfig` | systems/GameLoop.ts:12-30 | the weights are percentages summing to 100; the interval lies in [10, 80]; boss and surge phases have their own tables |
| `Waves.WaveIntervalByMinute` | systems/GameLoop.ts:24-29 | outside boss and surge phases the interval depends on the minute only |
| `Waves.LateIntervalNonIncreasing` | systems/GameLoop.ts:28-29 | the late-game interval never grows from one minute to the next |
| `Waves.SpawnInterval` | systems/GameLoop.ts:88-90 | the interval used: the hardest map's is floor(0.7 x), never below 2; other maps keep the table's |
| `Waves.BossCadence` | systems/GameLoop.ts:79-82 | the first n frames hold exactly n / 10800 boss spawns |
| `Waves.BossCadenceTwoWaves` | systems/GameLoop.ts:79-82 | in 21600 frames bosses come at frames 10800 and 21600 only |
| `Waves.PickKindBands` | systems/GameLoop.ts:95-101 | each kind is picked exactly on a band of rolls as wide as its weight |
| `Waves.SpawnedKinds` | systems/GameLoop.ts:104-108 | a swarmer roll spawns three swarmers; any other roll spawns one enemy of its kind |
| `Waves.SpawnCount` | systems/GameLoop.ts:104-108 | one spawn adds 3 enemies for a swarmer roll and 1 otherwise |
| `Waves.SpawnStats` | systems/GameLoop.ts:232-271 | every row of the table gives positive health and radius, non-negative damage and value and a knockback resistance in [0, 1]; a boss has radius 45 and resistance 0.95, a goliath or rusher resistance 0.9 |
| `Waves.SpawnStatsScaled` | systems/GameLoop.ts:232-271 | the spawn stats are the kind's row of the table with health times difficulty × wave power × the map's health factor, damage times wave power × the map's damage factor, speed times the speed multiplier × the map's speed factor and value times the XP multiplier; radius and resistance as listed |
| `Waves.WavePowerGrows` | systems/GameLoop.ts:233-234 | wave power starts at 1 and never falls as time passes |
| `Waves.MultsGrow` | systems/GameLoop.ts:233-242 | the health multiplier grows with difficulty and with time, the damage multiplier with time |
| `Waves.ModifiersPositive` | systems/GameLoop.ts:236-239 | every map scales health and damage by a positive factor |
| `Waves.HarderIsTougher` | systems/GameLoop.ts:223-271 | a higher difficulty raises a spawn's health and changes none of its other stats |
| `Waves.LaterIsStronger` | systems/GameLoop.ts:233-271 | a later spawn has at least the health and damage of an earlier one, and the same other stats |
| `Waves.SpawnPoint` | systems/GameLoop.ts:225-230 | the spawn point lies on the ring 50 px outside the chosen edge |
| `Combat.ArmorDamage` | systems/GameLoop.ts:461 | net damage is max(1, damage - armour): at least 1, never above the raw damage when that is at least 1 |
| `Combat.AbilityDuration` | systems/GameLoop.ts:282-291 | dash 15, shield 180 and nova 10 frames |
| `Combat.TickDown` | systems/GameLoop.ts:206 | a positive counter loses 1; any other is unchanged |
| `Combat.TickDownReal` | systems/GameLoop.ts:205 | the same for a fractional counter, which stops in (-1, 0] |
| `Combat.DamageEnemy` | systems/GameLoop.ts:723-727 | health drops by the damage; an animated enemy killed enters death once, a survivor enters hurt |
| `Combat.PlayerAnimStep` | systems/GameLoop.ts:139-200 | the player state machine: death first and entered once, hurt and attack fall back to idle, otherwise walk or idle |
| `Combat.PlayerHurtRecovers` | systems/GameLoop.ts:139-164 | a living hurt player at frame f with timer t stays hurt for exactly (3 - f) × 6 + 6 - t frames and is then idle at frame 0; from the last frame, within six frames |
| `Combat.EnemyAnimTransitions` | systems/GameLoop.ts:564-661 | frames stay in range; death is terminal; hurt and attack fall back to walk; walk attacks only when near |
| `Combat.DeathAnimationEnds` | systems/GameLoop.ts:574-595 | a dying enemy finishes its animation, and is marked, within 6 frames per remaining sprite frame |
| `Combat.GainXp` | systems/GameLoop.ts:786-788 | experience is added; at the threshold one level-up spends it and the threshold grows by half, floored |
| `Combat.CarriedOverLevel` | systems/GameLoop.ts:788 | experience left above the new threshold levels up again on the next pickup |
| `Combat.Heal` | systems/GameLoop.ts:790 | a heal adds 25, capped at the maximum, and never lowers health below its old value |
| `Combat.HealthDropChance` | systems/GameLoop.ts:769-772 | 0.5% by default, 10% for a goliath, 100% for a boss |
| `Combat.DeathLoot` | systems/GameLoop.ts:769-773 | loot at the enemy's position worth its value times the multiplier; health exactly when the roll is below the chance |
| `Combat.DistSq` | systems/GameLoop.ts:781 | the squared distance the range tests compare, never negative |
| `GameLoop.World.constructor` | components/GameCanvas.tsx:44-82 | empty lists, the initial time state, no score, kills, shake or feedback |
| `GameLoop.World.CountKill` | systems/GameLoop.ts:578-579 | score +10, kills +1, and the shake set |
| `GameLoop.World.DropLoot` | systems/GameLoop.ts:587 | the loot is appended to the list |
| `GameLoop.World.Reset` | components/GameCanvas.tsx:93-111 | clock restarted, every list emptied, the given hazards, score and kills zero, on the given map |
| `GameLoop.World.AddIndicator` | systems/GameLoop.ts:838-842 | one damage number showing the rounded-up value is appended |
| `GameLoop.World.StrikePlayer` | systems/GameLoop.ts:455-469 | an active shield absorbs the hit and is spent; otherwise the armoured damage is taken and a fatal hit reports game over |
| `GameLoop.World.AbsorbHit` | systems/GameLoop.ts:455-459 | the shield is spent, the hit feedback runs for 30 frames and a 0 is shown |
| `GameLoop.World.TakeHit` | systems/GameLoop.ts:461-469 | health drops by the armoured damage, shake 10, feedback 30, game over reported exactly when health reaches zero |
| `GameLoop.World.SpawnEnemy` | systems/GameLoop.ts:221-276 | one new enemy with the stat table's stats, full health, walking and unrewarded, at the end of the list; a boss adds its warning |
| `GameLoop.World.AdvanceClock` | systems/GameLoop.ts:71-77 | time +1; every 1800 frames difficulty +0.1 and a void event is requested |
| `GameLoop.World.BossStep` | systems/GameLoop.ts:79-82 | a boss enters and the shake is 50 exactly on positive multiples of 10800 |
| `GameLoop.World.SpawnGroup` | systems/GameLoop.ts:104-108 | the enemies of `SpawnedKinds` are appended, in order |
| `GameLoop.World.RegularSpawn` | systems/GameLoop.ts:84-109 | the spawn rate follows the table; when the timer reaches it, the timer restarts and one roll spawns its group |
| `GameLoop.World.MovePlayer` | systems/GameLoop.ts:131-137 | the step at the move speed, clamped to the canvas; the player faces the way it moves horizontally |
| `GameLoop.World.AnimatePlayer` | systems/GameLoop.ts:139-200 | the player's animation advances by `PlayerAnimStep` |
| `GameLoop.World.TriggerAbility` | systems/GameLoop.ts:278-309 | nothing while recharging; otherwise the recharge and duration start, and a nova hits every living enemy |
| `GameLoop.World.NovaBlast` | systems/GameLoop.ts:292-307 | shake 30; every living enemy takes the nova's damage; one critical number per enemy hit |
| `GameLoop.World.TickAbilityTimers` | systems/GameLoop.ts:205-206 | both ability counters count down while positive |
| `GameLoop.PlayerHitIndicator` | systems/GameLoop.ts:464 | the player's damage number shows the damage rounded up |
| `GameLoop.GameOverIf` | systems/GameLoop.ts:469 | game over is reported, with score and kills, exactly when health is at or below zero |
| `GameLoop.NovaDamage` | systems/GameLoop.ts:294 | twenty times the first weapon's damage, never negative |
| `GameLoop.NovaIndicators` | systems/GameLoop.ts:300 | one critical number per living enemy |
| `GameLoop.NovaHit` | systems/GameLoop.ts:295-304 | a living enemy takes the damage and is pushed back; a dead one is unchanged |
| `GameLoop.NovaSweep` | systems/GameLoop.ts:295-306 | every enemy of the list gets `NovaHit`, in place |
| `GameLoop.SweepNova` | systems/GameLoop.ts:295-306 | the loop gives `NovaSweep` and counts the living enemies hit |
| `GameLoop.MoveSpeed` | systems/GameLoop.ts:131 | triple speed exactly while a dash is active |
| `GameLoop.MoveTarget` | systems/GameLoop.ts:132-133 | the new position keeps a body that fits inside the canvas |
| `Weapons.Nearest` | systems/GameLoop.ts:411-413 | the first living enemy strictly closest, within the limit; none exactly when no living enemy is within it |
| `Weapons.NewOrbital` | systems/GameLoop.ts:322-324 | a new orbital at the player, owned by the weapon through its id prefix |
| `Weapons.PlaceOrbitals` | systems/GameLoop.ts:327-335 | the k-th owned orbital goes to slot k on the 80 px circle with the weapon's damage; other projectiles are untouched |
| `Weapons.OrbitKeepsOwned` | systems/GameLoop.ts:328-335 | placing keeps every id and behaviour, so the owned count is unchanged |
| `Weapons.TopUp` | systems/GameLoop.ts:316-337 | the owned orbital count becomes max(owned, projectileCount); old projectiles are placed and new ones appended |
| `Weapons.TopUpOrbitals` | systems/GameLoop.ts:316-337 | the world's owned orbital count becomes max(owned, projectileCount) |
| `Weapons.OwnedRepeat` | systems/GameLoop.ts:320-325 | n new orbitals add exactly n owned ones |
| `Weapons.LightningOrder` | systems/GameLoop.ts:345 | exactly the living enemies within 250, each once, nearest first |
| `Weapons.BoltCount` | systems/GameLoop.ts:346 | min(projectileCount, enemies in range) |
| `Weapons.Beam` | systems/GameLoop.ts:351 | the beam starts at the player and carries the target's position |
| `Weapons.StrikeInOrder` | systems/GameLoop.ts:346-353 | the first n enemies of the order take the damage; one beam each, in order |
| `Weapons.StrikeLightning` | systems/GameLoop.ts:343-356 | by `LightningStruck`: the `BoltCount` nearest living enemies within 250 take the weapon's damage, every other enemy is unchanged, and one beam per struck enemy is appended in that order |
| `Weapons.StruckInOrder` | systems/GameLoop.ts:345-353 | striking the first `BoltCount` enemies of the lightning order and appending their beams is `LightningStruck` |
| `Weapons.InLightningOrder` | systems/GameLoop.ts:345 | every living enemy within 250 is in the order |
| `Weapons.LightningOrderSorted` | systems/GameLoop.ts:345 | the order is sorted by distance |
| `Weapons.LightningNearestFirst` | systems/GameLoop.ts:345-348 | every struck enemy is at least as close as every unstruck one in range |
| `Weapons.LightningBoltCount` | systems/GameLoop.ts:346 | exactly min(projectileCount, in range) enemies are struck |
| `Weapons.Slash` | systems/GameLoop.ts:390-405 | a 60 px hitbox 40 px in front of the player, 15 frames, pierce 999, the weapon's damage |
| `Weapons.SwingSword` | systems/GameLoop.ts:358-409 | by `Swung`: with no living enemy within 150 nothing changes; otherwise the target is the first nearest, the player faces it and starts the attack at frame 0, and the slash is appended |
| `Weapons.PelletSpread` | systems/GameLoop.ts:419 | a draw in [0, 1) turns the aim by less than 0.4 rad either way |
| `Weapons.PelletSpeed` | systems/GameLoop.ts:420 | a draw in [0, 1) gives between 80% and 120% of the weapon's speed |
| `Weapons.Pellet` | systems/GameLoop.ts:419-421 | one pellet from the player with the weapon's damage and duration and pierce 2, flying along the aim turned by `PelletSpread` at `PelletSpeed` |
| `Weapons.Pellets` | systems/GameLoop.ts:417-423 | projectileCount pellets, two draws each |
| `Weapons.ShotgunVolley` | systems/GameLoop.ts:417-423 | the loop builds `Pellets` |
| `Weapons.ThrownBoomerang` | systems/GameLoop.ts:427-428 | a boomerang; the second flies the opposite way |
| `Weapons.Boomerangs` | systems/GameLoop.ts:424-430 | one boomerang, two at rank 5 |
| `Weapons.BoomerangVolley` | systems/GameLoop.ts:424-430 | the loop builds `Boomerangs` |
| `Weapons.FlaskTarget` | systems/GameLoop.ts:431-432 | with draws in [0, 1), the aim point lies within 25 px of the target on each axis, or within 100 px of the player without one |
| `Weapons.Flask` | systems/GameLoop.ts:431-434 | a 30-frame lob from the player whose velocity brings it to `FlaskTarget` on its last frame; blast radius 40 + 10 per rank |
| `Weapons.Bolt` | systems/GameLoop.ts:435-438 | the pistol's single straight bolt at the aim |
| `Weapons.Volley` | systems/GameLoop.ts:415-438 | each weapon's own projectiles, all with the weapon's damage and owned by the player |
| `Weapons.BuildVolley` | systems/GameLoop.ts:415-438 | the loops build `Volley` |
| `Weapons.FireAimed` | systems/GameLoop.ts:411-440 | fires exactly when there is a target or the weapon fires blind (shotgun, boomerang, molotov); then, by `Aimed`, the `Volley` at the aim is appended and its draws are used; otherwise projectiles and draws are unchanged |
| `Weapons.NextTimerFacts` | systems/GameLoop.ts:313-440 | an inactive weapon keeps its timer; a recharging one loses one frame; a due one ends where `DueTimer` allows for its kind: lightning, shotgun, boomerang and molotov at the cooldown, the sword at the cooldown or 0, the pistol at the cooldown or its counted-down value; a sword with no target at 0 |
| `Weapons.Fire` | systems/GameLoop.ts:339-441 | a due weapon fires by its kind (`Fired`): lightning by `LightningStruck`, the sword by `Swung`, the aimed weapons by `Aimed`, each leaving what the others change untouched; the new timer is `NextTimer` |
| `Weapons.Turn` | systems/GameLoop.ts:312-441 | one weapon's turn before its timer is stored: the timer `NextTimer`; an inactive or recharging non-orbital weapon changes nothing; an orbital one tops its owned orbitals up to max(owned, projectileCount) and changes nothing else; a due one fires by `Fired` |
| `Weapons.FireWeapon` | systems/GameLoop.ts:312-441 | only this weapon's timer changes, to `NextTimer`; an inactive or recharging non-orbital weapon changes nothing else; an orbital one tops up to max(owned, projectileCount) and touches neither enemies nor draws; a due one fires by `Fired` |
| `Weapons.UpdateWeapons` | systems/GameLoop.ts:311-443 | same number of weapons; each changes at most its timer; an inactive weapon keeps it, a recharging one loses one frame, and a due one ends at the timer `DueTimer` allows for its kind (lightning and the blind-firing weapons at the cooldown, the sword at the cooldown or 0, the pistol at the cooldown or its counted-down value); when no weapon is due and none is orbital, enemies, projectiles, draws and the player's animation are unchanged |
| `Projectiles.BlastRadius` | systems/GameLoop.ts:521 | a zero radius falls back to 40 |
| `Projectiles.FirePool` | systems/GameLoop.ts:548 | a landing flask leaves a fire zone at its position lasting 180 frames |
| `Projectiles.ProjectileStep` | systems/GameLoop.ts:446-556 | a projectile's own step: it moves, counts down and expires by its behaviour; a mark is never cleared |
| `Projectiles.ZoneIndicators` | systems/GameLoop.ts:503 | each enemy hit draws once; a draw below the chance shows a number |
| `Projectiles.SweepZone` | systems/GameLoop.ts:493-510 | every enemy the zone reaches takes its effect, the others are untouched; one draw per hit |
| `Projectiles.TickDamage` | systems/GameLoop.ts:496 | a slash tick deals a fifth of the damage, rounded up |
| `Projectiles.SlashHit` | systems/GameLoop.ts:497-508 | the tick's damage, then a knockback of 2 away from the player |
| `Projectiles.PulseDamage` | systems/GameLoop.ts:522 | a pulse deals a fifth of the flask's damage |
| `Projectiles.EnemyShot` | systems/GameLoop.ts:448-476 | an enemy shot takes its step; exactly when it lands (`ShotLands`) it is used up and the player is hit: an active shield absorbs it, otherwise the armoured damage, the hurt state and the game-over report; a miss leaves the player untouched |
| `Projectiles.ShotHits` | systems/GameLoop.ts:452-470 | the shot lands exactly on `ShotLands`; a landed shot is absorbed by an active shield or deals the armoured damage with the hurt state and the game-over report; health never rises |
| `Projectiles.SweepWorld` | systems/GameLoop.ts:493-527 | each enemy the zone reaches takes the effect, the others are unchanged; `ZoneIndicators` appended; one draw per enemy reached; the enemies are only worn |
| `Projectiles.SweepWears` | systems/GameLoop.ts:493-527 | an effect that only wears an enemy (same kind, place and maximum, no more health), applied to the enemies a zone reaches, wears the whole list |
| `Projectiles.SlashTickWears` | systems/GameLoop.ts:497-508 | a slash tick only wears an enemy: its knockback changes its velocity, not its place |
| `Projectiles.BurnWears` | systems/GameLoop.ts:522-524 | a burn only wears an enemy |
| `Projectiles.SlashStepIn` | systems/GameLoop.ts:484-514 | the slash follows the player; every enemy it reaches takes `SlashHit`, with one draw and possibly a number each; the others are unchanged |
| `Projectiles.SlashSweep` | systems/GameLoop.ts:493-510 | the slash's tick on the world: `SlashHit` on exactly the enemies it reaches, their numbers and one draw each |
| `Projectiles.PoolStepIn` | systems/GameLoop.ts:516-531 | the fire zone counts down and, every tenth frame, burns every living enemy within its radius |
| `Projectiles.PlainStepIn` | systems/GameLoop.ts:533-555 | other projectiles take their own step; a landing flask appends its fire zone |
| `Projectiles.Landing` | systems/GameLoop.ts:543-550 | one fire zone for a landing flask, none otherwise |
| `Projectiles.Landings` | systems/GameLoop.ts:543-550 | the fire zones of the flasks that land, in list order |
| `Projectiles.StepProjectile` | systems/GameLoop.ts:446-556 | one projectile's turn: it takes one of its outcomes and a landing flask appends its zone; by `Wore`, enemies are only worn, the player's health never rises, numbers, events and draws only grow, a player's projectile leaves the player alone, and only a slash or fire zone touches enemies and draws |
| `Projectiles.Turn` | systems/GameLoop.ts:445-557 | one more projectile's turn extends the stage's record, with the side effects of `Wore` |
| `Projectiles.UpdateProjectiles` | systems/GameLoop.ts:445-557 | each projectile by one of its outcomes, then one fire zone per landed flask; enemies only worn; the player's health never rises; numbers, events and draws only grow; without enemy shots the player and the events are untouched; without slashes and fire zones the enemies and draws are untouched |
| `Projectiles.LandedFlasks` | systems/GameLoop.ts:543-549 | every landed flask is marked, and the appended zones are exactly their fire zones |
| `Projectiles.LandingsArePools` | systems/GameLoop.ts:548 | each appended zone lasts 180 frames and sits where its flask landed |
| `Enemies.NoOverlapNoPush` | systems/GameLoop.ts:682-686 | an enemy that overlaps no blocking enemy gets no push |
| `Enemies.SeparationPush` | systems/GameLoop.ts:680-686 | the loop sums the pushes of every other blocking enemy |
| `Enemies.WallPullTowardCentre` | systems/GameLoop.ts:697-702 | on the electric map an enemy at the border moves 5% of the way to the centre; nothing else changes |
| `Enemies.Moved` | systems/GameLoop.ts:664-694 | a rusher flies; others drift and walk toward the player when settled and free to move; kind and health unchanged |
| `Enemies.LavaBurn` | systems/GameLoop.ts:703-711 | health drops by the pool's damage; an animated enemy it kills enters its death animation |
| `Enemies.LavaLeavesUndead` | systems/GameLoop.ts:708 | as written, lava leaves a walking orc at zero health, neither alive nor dying |
| `Enemies.LavaAfter` | systems/GameLoop.ts:703-711 | each pool the enemy is in pushes and burns it and draws once |
| `Enemies.LavaPass` | systems/GameLoop.ts:703-711 | the loop over the pools gives `LavaAfter` |
| `Enemies.Pierced` | systems/GameLoop.ts:737 | a hit uses one pierce, and the projectile is spent when none is left |
| `Enemies.HitDamage` | systems/GameLoop.ts:723 | the total damage of the projectiles that reach the enemy |
| `Enemies.AfterHits` | systems/GameLoop.ts:714-739 | the enemy's health drops by exactly the total damage of the hits |
| `Enemies.HitIndicators` | systems/GameLoop.ts:728 | one damage number per hit, in order |
| `Enemies.PiercedAll` | systems/GameLoop.ts:714-739 | each projectile that hit used up one pierce; the others are untouched |
| `Enemies.HitPass` | systems/GameLoop.ts:714-739 | the loop over the projectiles gives the enemy, projectiles and numbers above |
| `Enemies.Reward` | systems/GameLoop.ts:762-774 | paid once: flag set, score +10, kills +1, shake, and one loot drop |
| `Enemies.DyingTurn` | systems/GameLoop.ts:574-596 | the enemy becomes `Dying` of itself: it collects an unpaid reward, animates and is marked when done; one draw exactly when it was unpaid; the books kept |
| `Enemies.Strike` | systems/GameLoop.ts:605-646 | the wizard throws a fireball; a blow on a living player in range not protected by feedback or a dash sets feedback 30 and is absorbed by an active shield or deals the armoured damage with the hurt animation and the game-over report; otherwise nothing changes |
| `Enemies.StrikeIf` | systems/GameLoop.ts:630-645 | a hit sets feedback 30 and is absorbed by an active shield or deals the armoured damage with the hurt animation and the game-over report; no hit changes nothing |
| `Enemies.ThrowFireball` | systems/GameLoop.ts:609-625 | the fireball aimed at the player is appended |
| `Enemies.AnimatedOk` | systems/GameLoop.ts:597-661 | animating keeps an enemy well-formed, and alive or dying as it was |
| `Enemies.AnimateLiving` | systems/GameLoop.ts:597-661 | on the middle attack frame the blow lands; then the enemy animates |
| `Enemies.MoveOf` | systems/GameLoop.ts:664-702 | the enemy's movement, then the walls' pull |
| `Enemies.LavaTurn` | systems/GameLoop.ts:703-711 | the lava's effect, numbers and draws go to the world |
| `Enemies.HitTurn` | systems/GameLoop.ts:714-739 | the hits' effect on the enemy and the projectiles, one number per hit |
| `Enemies.Approach` | systems/GameLoop.ts:564-702 | a living enemy animates, if animated, then moves and is pulled by the walls; a wizard whose attack lands adds its fireball (`Thrown`); its reward flag is kept; the player's health never rises |
| `Enemies.Exposure` | systems/GameLoop.ts:703-739 | the enemy after the pools (`LavaAfter`), then after the projectiles' hits (`AfterHits`); the projectiles lose their pierce (`PiercedAll`); the draws are the lava's |
| `Enemies.ContactTurn` | systems/GameLoop.ts:742-757 | a living rusher or boss touching a player not protected by feedback or a dash sets feedback 30 and is absorbed by an active shield or deals the armoured damage with the hurt animation and the game-over report; otherwise nothing changes |
| `Enemies.SettleTurn` | systems/GameLoop.ts:760-775 | the enemy becomes `Settle`: a killed rusher or boss is marked, a killed enemy is paid for if it was not yet, with one draw; the books kept |
| `Enemies.LivingTurn` | systems/GameLoop.ts:560-776 | a living enemy's turn is `LivedTurn` of the list as it stands: the enemy in its slot, the projectiles and the draws afterwards; the player's health never rises; the books kept and a kill paid for (`Kept`) |
| `Enemies.Act` | systems/GameLoop.ts:564-739 | approach, lava and hits; with contact and settling still to come, the turn is `LivedTurn` |
| `Enemies.Finish` | systems/GameLoop.ts:742-775 | contact, then settling: the enemy becomes `Settle`, one draw for an unpaid kill, the books kept (`Kept`) |
| `Enemies.LivingOutcome` | systems/GameLoop.ts:564-776 | animation, movement, wall pull, lava, hits and settling, composed, are `LivedTurn` |
| `Enemies.EnemyTurn` | systems/GameLoop.ts:560-776 | the turn is `TurnOf` the list as it stands: only the enemy's slot changes, to its new state, and the projectiles and draws are the turn's; the player's health never rises; the books kept and a kill paid for (`Kept`) |
| `Enemies.LedgerStep` | systems/GameLoop.ts:760-775 | one turn's books extend the stage's books |
| `Enemies.PlayedStep` | systems/GameLoop.ts:559-777 | enemy i's `TurnOf` on the list as the earlier turns left it extends the stage by one turn |
| `Enemies.Play` | systems/GameLoop.ts:559-777 | one more turn of the stage: `Played` grows by the enemy's `TurnOf`, the player's health never rises, the books kept |
| `Enemies.UpdateEnemies` | systems/GameLoop.ts:559-777 | in list order every enemy takes its `TurnOf` on the list as earlier turns left it, the projectiles and draws passing from turn to turn (`Played`); an enemy is then paid for exactly when killed, no reward is taken back, kills and loot grow by the rewards paid, and the player's health never rises |
| `Pickups.PullCloses` | systems/GameLoop.ts:782-783 | inside the range the pull leaves 85% of the distance; outside nothing moves |
| `Pickups.Swept` | systems/GameLoop.ts:780-795 | loot keeps its value and kind, and is marked exactly when collected |
| `Pickups.Absorb` | systems/GameLoop.ts:786-791 | experience adds up with at most one level-up; health heals; the bounds are kept |
| `Pickups.HaulOf` | systems/GameLoop.ts:780-796 | the player's progression after the collected pieces, in order; its bounds kept |
| `Pickups.HaulBooks` | systems/GameLoop.ts:786-790 | no experience is lost; each level-up spends at least 100; one heal per health pickup; health never drops |
| `Pickups.LevelUpsPaidFor` | systems/GameLoop.ts:786-788 | 100 times the level-ups never exceeds the experience held plus collected |
| `Pickups.PickUp` | systems/GameLoop.ts:781-794 | one piece: swept, and absorbed when collected |
| `Pickups.Gather` | systems/GameLoop.ts:780-796 | the loop gives the swept list and the progression of `HaulOf` |
| `Pickups.UpdateLoot` | systems/GameLoop.ts:779-797 | every piece swept; the player's numbers follow `HaulOf`; one level-up event per level-up, one 25 per heal |
| `Effects.Decay` | systems/GameLoop.ts:800 | a particle loses its decay and is marked once its life is used up |
| `Effects.ParticleExpires` | systems/GameLoop.ts:799-801 | after n frames a particle is marked exactly when n decays use up its life |
| `Effects.IndicatorLifetime` | systems/GameLoop.ts:803-809 | a new damage number has life left after n fades exactly when n < 50 |
| `Effects.UpdateParticles` | systems/GameLoop.ts:799-801 | every particle decays, in place |
| `Effects.UpdateIndicators` | systems/GameLoop.ts:803-809 | every damage number fades, in place |
| `Effects.ScaldToll` | systems/GameLoop.ts:820-825 | each burning pool takes max(1, 2 - armour) and shows one number; the shake is untouched |
| `Effects.ScaldHp` | systems/GameLoop.ts:820-825 | the pools lower health by one max(1, 2 - armour) per burning pool, summed pool by pool |
| `Effects.ScaldMarks` | systems/GameLoop.ts:820-825 | one damage number per burning pool; shake untouched; no report when no pool burns |
| `Effects.NoBurnOffBeat` | systems/GameLoop.ts:821 | no pool burns off the 20-frame beat |
| `Effects.FatalHazardReported` | systems/GameLoop.ts:820-825 | with the report, a pass that leaves no health ends with game over |
| `Effects.HazardPassReportsDeath` | systems/GameLoop.ts:811-826 | the same with the electric walls in front |
| `Effects.HazardDeathUnreported` | systems/GameLoop.ts:811-826 | as written, a player at 2 health in lava is left at 0 with no game over |
| `Effects.ScaldLoop` | systems/GameLoop.ts:820-825 | the loop over the pools gives `Scald` |
| `Effects.ShockStep` | systems/GameLoop.ts:812-819 | at the border on the electric map, every 30 frames: max(1, 5 - armour) and shake +5 |
| `Effects.UpdateHazards` | systems/GameLoop.ts:811-826 | the walls, then the pools, with the game-over report |
| `Frame.Clock` | systems/GameLoop.ts:84-85 | minutes and seconds: the seconds are below 60 and recompose the frame count |
| `Frame.DirectorPhase` | systems/GameLoop.ts:71-109 | time +1; kills unchanged; enemies only appended |
| `Frame.PlayerPhase` | systems/GameLoop.ts:131-206 | the position is `MoveTarget` at `MoveSpeed` (clamped to the canvas), facing follows the sign of dx, the animation is one `PlayerAnimStep`, and the ability part is `AbilityKeyed` |
| `Frame.AbilityKey` | systems/GameLoop.ts:204-206 | without a fired ability both counters count down; a fired one restarts them to the cooldown and duration, counted down once; a nova sets shake 30 and applies `NovaSweep` and its numbers at the player's new position; otherwise shake, enemies and numbers are unchanged |
| `Frame.CombatPhase` | systems/GameLoop.ts:208-212 | kills never drop; the player's health never rises; afterwards every enemy is paid for exactly when it has no health |
| `Frame.UpkeepPhase` | systems/GameLoop.ts:213-216 | loot, particles, numbers and hazards keep the world's invariant |
| `Frame.UpdateGame` | systems/GameLoop.ts:65-217 | one frame: the invariant kept, time +1, kills never drop, every enemy paid for exactly when it has no health |
| `Canvas.Cleanup` | components/GameCanvas.tsx:178-183 | each list keeps exactly its unmarked members, and the numbers with life left, in order |
| `Canvas.CleanupExtremes` | components/GameCanvas.tsx:179 | a list is kept whole exactly when nothing is marked, and emptied when everything is |
| `Canvas.ShakeDecay` | components/GameCanvas.tsx:217-220 | a positive shake shrinks to 90%, or to 0 below one half |
| `Canvas.ShakeSubsides` | components/GameCanvas.tsx:217-220 | a decaying shake never grows and never goes below zero |
| `Canvas.FeedbackRunsOut` | components/GameCanvas.tsx:221 | the feedback timer reaches 0 after as many frames as it holds, and stays there |
| `Canvas.Decay` | components/GameCanvas.tsx:216-221 | the shake and the feedback timer decay |
| `Canvas.Digits` | components/GameCanvas.tsx:189 | a non-empty string of decimal digits |
| `Canvas.TimeLabelShape` | components/GameCanvas.tsx:189 | the label is the minutes, a colon and exactly two second digits |
| `Canvas.Sync` | components/GameCanvas.tsx:185-195 | every 30th frame the display shows time, wave = minute + 1, score and the player's numbers |
| `Canvas.Animate` | components/GameCanvas.tsx:131-221 | outside play nothing changes; in play one frame, cleanup, display every 30 frames, decay |
| `Canvas.DrawnPools` | components/GameCanvas.tsx:97-101 | n pools, three draws each |
| `Canvas.DrawnPoolsShape` | components/GameCanvas.tsx:97-101 | each pool burns 0.2, has a radius in [60, 100), lies on the view and has id `lava_i` |
| `Canvas.LavaIdsDistinct` | components/GameCanvas.tsx:99 | the pools' ids are all different |
| `Canvas.LayPools` | components/GameCanvas.tsx:93-102 | five drawn pools on a lava map, none otherwise |
| `Canvas.ResetForMap` | components/GameCanvas.tsx:92-112 | the new map's pools; time state, lists, score and kills back to their start |
| `Upgrades.PoolComplete` | App.tsx:76-337 | every upgrade is in the pool exactly once |
| `Upgrades.WeaponsOfPool` | App.tsx:140-308 | no two weapon upgrades share a weapon, and none improves the pistol |
| `Upgrades.StarterWeapon` | App.tsx:50-72 | a rank-1 weapon, ready to fire: sword, shotgun and boomerang have their own, everything else gets the pistol |
| `Upgrades.Unlocked` | App.tsx:149-294 | an unlocked weapon has the kind, rank 1 and a ready timer |
| `Upgrades.Upgraded` | App.tsx:154-306 | one rank more, same kind, id and timer |
| `Upgrades.FindKind` | App.tsx:148 | the first weapon of the kind, or none when no weapon has it |
| `Upgrades.UpgradeNeverDuplicates` | App.tsx:147-158 | an owned weapon ranks up in place; otherwise exactly one rank-1 weapon is appended; kinds stay distinct |
| `Upgrades.HastenAll` | App.tsx:87 | Rapid Fire applied to every weapon |
| `Upgrades.EmpowerAll` | App.tsx:99 | High Caliber applied to every weapon |
| `Upgrades.AppliedKeepsBuildOk` | App.tsx:76-337 | every upgrade keeps the player's invariant |
| `Upgrades.NanoRepairHeals` | App.tsx:118 | maximum +20, heal 30 never past the new maximum |
| `Upgrades.RapidFireFloor` | App.tsx:85-88 | every cooldown at least 2 afterwards; none at or above that floor grows |
| `Upgrades.AbilitySwapReady` | App.tsx:318-335 | the new ability is ready, with a cooldown of 300 or 600 |
| `Upgrades.Climb` | App.tsx:154-158 | n upgrades add n ranks and keep the kind |
| `Upgrades.ShotgunTable` | App.tsx:176-183 | one pellet per rank and two more at rank 5; five frames off the cooldown per rank, down to 10 |
| `Upgrades.BoomerangTable` | App.tsx:231-236 | 20 frames off per rank down to 30; two at rank 5; +5 damage per rank |
| `Upgrades.SwordTable` | App.tsx:154-158 | 10% off the cooldown per rank down to 10; 30% more damage per rank |
| `Upgrades.LightningTable` | App.tsx:295-306 | bolts 2, 2, 3, 3, 4; 1.5 times the damage at ranks 2 and 4 |
| `Upgrades.OrbAndMolotovTables` | App.tsx:210-267 | orbs: +1 orb and +3 damage per rank; molotov: -10 cooldown and +2 damage per rank |
| `Upgrades.SelectionKeepsRanks` | App.tsx:480-487 | taking and counting an upgrade keeps counts and weapon ranks in agreement |
| `Upgrades.RetuneKeepsRanks` | App.tsx:85-136 | a stat or ability upgrade keeps every weapon's kind and rank |
| `Upgrades.WeaponUpgradeKeepsRanks` | App.tsx:140-307 | a weapon upgrade raises its weapon's rank with its count and leaves the others alone |
| `Upgrades.RanksWithinFive` | App.tsx:146 | with counts within their maxima every weapon rank is in [1, 5] |
| `Upgrades.UpgradeFor` | App.tsx:141-276 | every weapon kind but the pistol has its own upgrade, with five ranks |
| `Upgrades.UnmaxedIsFilter` | App.tsx:455-458 | the available upgrades are exactly the pool filtered by count < maxRank |
| `Upgrades.Displays` | App.tsx:465-473 | each option shows its current rank and whether taking it reaches the maximum |
| `Upgrades.Offer` | App.tsx:453-473 | min(3, available) distinct options, each below its maximum, with rank and `isMax` right |
| `Upgrades.FirstThree` | App.tsx:462 | the first min(3, n) elements |
| `Upgrades.OfferShown` | App.tsx:455-473 | the offer's size, ranks, `isMax` and distinctness |
| `Upgrades.ShownBelowMax` | App.tsx:466-471 | every option shown is below its maximum |
| `Upgrades.ShownDistinct` | App.tsx:461-462 | no option is shown twice |
| `Upgrades.ShownInOrder` | App.tsx:461-462 | the options are the first shuffled upgrades, in order |
| `Upgrades.ShuffledAvailable` | App.tsx:455-461 | a shuffle of the available upgrades has no repeats and only upgrades below their maximum |
| `Meta.FindConfig` | App.tsx:542 | the found config is in the list with that id; none when no entry has it |
| `Meta.Index` | App.tsx:10-17 | each upgrade's position in the shop list holds its own entry |
| `Meta.FindsOwnEntry` | App.tsx:10-17 | each upgrade finds its own entry |
| `Meta.EveryIdConfigured` | App.tsx:10-17 | every meta upgrade is configured, price scale above 1, base at least 250, 50 ranks |
| `Meta.CostGrows` | App.tsx:548 | for every shop upgrade, a higher rank never costs less and no rank costs less than the base, with the three prices that double rounding lowers by one credit |
| `Meta.DoublePrices` | App.tsx:548 | the price in doubles is 459 for Engine Tuning rank 1, 528 for rank 2 and 1727 for Plating Armor rank 3; a profile with exactly 459 credits buys Engine Tuning rank 2 and keeps none |
| `Meta.BuyGuarded` | App.tsx:541-556 | a purchase happens exactly when the rank exists, is below 50 and is affordable; then exactly the price in doubles (`NextCost`, at least 250) is paid and that rank +1 |
| `Meta.CreditsPerKill` | App.tsx:497-499 | at least 50 credits a kill; a harder map never pays less |
| `Meta.CreditsOnMap` | App.tsx:499 | any configured map pays at least 50 a kill |
| `Meta.StatsAsAdvertised` | App.tsx:393-399 | the starting stats are what the shop advertises for the ranks |
| `Meta.StatsGrow` | App.tsx:393-399 | more ranks never give a weaker start, and the unupgraded stats are the floor |
| `Storage.EntriesOfIsFilter` | services/storageService.ts:22-23 | the map's entries are the stored list filtered by map |
| `Storage.MapBoardIsTopTen` | services/storageService.ts:20-26 | at most ten of the map's entries, best first, none left off scoring higher |
| `Storage.SavedIsTopHundred` | services/storageService.ts:28-34 | at most a hundred entries, best first, none dropped scoring higher than a kept one |
| `Storage.HighScoreBeatsBoard` | services/storageService.ts:36-40 | a record exactly when the board has room or the score beats some entry on it |
| `Storage.OldProfileCannotBuyArmor` | services/storageService.ts:56-64 | as written, a profile stored without an armor rank loads without one and can never buy armor |
| `Storage.LoadedProfileComplete` | services/storageService.ts:56-64 | with the merge per rank, a loaded profile has every rank; stored values kept, missing ones zero |
| `Storage.ProfileRoundTrip` | services/storageService.ts:56-68 | saving a complete profile and loading it gives it back |
| `Storage.OldProfileBuysArmor` | services/storageService.ts:44-64 | with the merge per rank an old profile with 1000 credits buys armor rank 1 |
| `Storage.Store.constructor` | services/storageService.ts:4-5 | the two keys hold what they are given |
| `Storage.Store.SaveScore` | services/storageService.ts:28-34 | the stored list becomes `Saved` of the old list and the entry |
| `Storage.Store.SaveUserProfile` | services/storageService.ts:66-68 | the profile key holds every field of the profile |
| `AppShell.HastenWeapons` | App.tsx:87 | the loop gives `HastenAll` |
| `AppShell.EmpowerWeapons` | App.tsx:99 | the loop gives `EmpowerAll` |
| `AppShell.ApplyUpgrade` | App.tsx:76-337 | the player's build becomes `Applied`, and its invariant is kept |
| `AppShell.Retune` | App.tsx:78-100 | Rapid Fire and High Caliber, as `Applied` |
| `AppShell.Boost` | App.tsx:102-136 | the four stat upgrades, as `Applied` |
| `AppShell.SwapAbility` | App.tsx:311-335 | the two ability upgrades, as `Applied` |
| `AppShell.GrantWeapon` | App.tsx:140-307 | the six weapon upgrades, as `Applied` |
| `AppShell.StartAgrees` | App.tsx:436-442 | a run starts with one rank-1 weapon whose counts agree |
| `AppShell.App.constructor` | App.tsx:339-374 | at the menu, on the first map, with the stored profile |
| `AppShell.App.LaunchGame` | App.tsx:389-451 | a fresh player centred in the view with the profile's health, speed, armour, range and multipliers, the starting weapon, level 1, 0 of 100 experience, cooldown factor 1, a ready dash with cooldown 120, idle; the seeded counts; play starts |
| `AppShell.App.HandleLevelUp` | App.tsx:453-478 | the offer of `Offer`, the level-up screen and the player's level |
| `AppShell.App.HandleSelectUpgrade` | App.tsx:480-490 | the upgrade applied and counted; play resumes; weapons still agree with counts |
| `AppShell.App.HandleGameOver` | App.tsx:492-509 | the score kept and checked; the run's credits added to the stored profile, saved and shown |
| `AppShell.App.RecordScore` | App.tsx:493-495 | the score and whether it is a record on the current map |
| `AppShell.App.PayOut` | App.tsx:497-506 | at least 50 credits a kill added to the loaded profile, saved |
| `AppShell.App.HandleSaveScore` | App.tsx:515-527 | the entry, named "Survivor" when unnamed, joins the stored leaderboard |
| `AppShell.App.HandleBuyMetaUpgrade` | App.tsx:541-556 | the profile becomes `Buy`; saved when it changed, untouched otherwise |

## Left out

- Rendering, sprite loading, audio, the touch and keyboard input hook and the overlay UI: none of them changes the simulation. Only the frame counts of the sprite sheets are kept.
- `spawnParticles` is not modelled. Particles are visual only, so the particle list is only aged and cleaned up, and the draws a particle burst takes from `Math.random` are not counted.
- Particle and damage-number motion (`x`, `y`, `vx`, `vy`) and colours are visual and not modelled. A damage number keeps its value, its life and its kind.
- The narrative void event (`services/geminiService.ts`) is asynchronous. The model records the request as an event and does not apply the speed modifier that arrives later.
- `spawnDamageIndicator` takes three draws from `Math.random` for each damage number: its id, an x jitter and a vx jitter (systems/GameLoop.ts:838-841). The model does not count them, so after the first damage number of a frame the model's draw positions no longer match the source's.
- `Math.random` ids (`Math.random().toString()`) are not modelled. The ids the model reads are modelled: orbital ids that start with their weapon's id, and lava pool ids.
- The text of local storage is not modelled. Each key holds nothing, unparsable text or a parsed value, and a stored value's field types are taken as the program writes them.
- `DEFAULT_PROFILE` is a shared object in the source, and `handleBuyMetaUpgrade` increments a rank inside a map shared with the old state. The model's profiles are values, so this aliasing is not captured.
- Before the first run the shell holds a placeholder player. The model gives it a pistol so that the player invariant holds from the start.
- `AppShell.App.HandleSelectUpgrade`: like the source, it accepts any upgrade and does not check that it was among those offered.
- `AppShell.App.HandleLevelUp`: the shuffle `sort(() => 0.5 - Math.random())` is a parameter, required only to be a reordering of the available upgrades.
- `Frame.UpdateGame`: states the world invariant, the clock, that kills never drop and the reward books. It does not compose the stages' effects into its postcondition. Each stage states its own, with the gaps listed on the lines below.
- `Weapons.UpdateWeapons`: states every weapon's timer up to the choice a due sword or pistol makes. Whether it restarts depends on a target in reach at its turn, after the earlier weapons have struck, so the stage states only the values its kind allows. It also states that nothing else changes when no weapon is due or orbital. What each due weapon fires is stated per weapon by `Weapons.FireWeapon` (`Fired`) and is not chained across the loop.
- `Projectiles.UpdateProjectiles`: states the new projectile list and, for the rest, only bounds. Enemies are only worn, health never rises, and numbers, events and draws only grow. The exact hits of each slash, fire zone and enemy shot are stated by `Projectiles.SlashStepIn`, `Projectiles.PoolStepIn` and `Projectiles.EnemyShot` and are not chained across the loop.
- `Enemies.UpdateEnemies`, `Enemies.EnemyTurn`: `TurnOf` covers the enemy, the projectiles and the draws. The player's exact damage, the shake, the feedback timer, the damage numbers and the events of a turn are stated only by `Enemies.Strike`, `Enemies.ContactTurn`, `Enemies.LavaTurn` and `Enemies.HitTurn`. The stage states only that the player's health never rises.
- `Frame.CombatPhase`: states the invariant, the kills, the reward books and that the player's health never rises. It does not chain the three stages' own postconditions: the weapon timers (`Weapons.UpdateWeapons`), the projectile list and the wear on the enemies (`Projectiles.UpdateProjectiles`) and each enemy's turn (`Enemies.UpdateEnemies`).
- `Frame.UpkeepPhase`: states only the world invariant. The effects of its four passes are stated by `Pickups.UpdateLoot`, `Effects.UpdateParticles`, `Effects.UpdateIndicators` and `Effects.UpdateHazards`, and are not composed here.
- `Frame.DirectorPhase`: states the clock and that enemies are only appended. The spawn itself is stated by `GameLoop.World.RegularSpawn` and `GameLoop.World.BossStep`.
- `Canvas.Animate`: states the gating and the clock. The cleanup, sync and decay are stated by `Canvas.Cleanup`, `Canvas.Sync` and `Canvas.Decay`.
- `Enemies.SeparationPush`: two enemies on the very same spot divide by a zero distance in the source (systems/GameLoop.ts:684), which gives a NaN push and then a NaN position. The model has no NaN; its `Ratio` makes that push 0.
- `Types.Player.constructor`: the player invariant bounds `abilityTimer` by `> -1`, not `>= 0`, because fractional cooldowns leave it in (-1, 0].
- `Effects.UpdateHazards`, `Enemies.UpdateEnemies` and `Storage.Store.GetUserProfile` use the corrected behaviour of the findings below. The as-written behaviour is modelled beside them.
- `handleQuitGame`, `enterPreparation`, `syncPlayerStats`, the menu's leaderboard refresh and the window resize handler only move the UI between screens and are not modelled.

## Findings

| source | as written | input that shows it | evidently intended | confidence | as-written member | corrected member |
|---|---|---|---|---|---|---|
| systems/GameLoop.ts:811-826 | hazard damage lowers the player's health but never calls `onGameOver`, which every other hit on the player does | a player with 2 health and no armour stands in a lava pool on frame 20, the first frame the pools burn, and is left at 0 health with no game over | a fatal hazard hit reports game over | high, not executed | `Effects.HazardDeathUnreported` | `Effects.HazardPassReportsDeath` |
| systems/GameLoop.ts:703-711 | lava lowers an enemy's health without its death transition, so an animated enemy can stand at zero health in its walk state, neither alive nor dying | an orc walking with 0.1 health in a pool of damage 0.2 | an animated enemy that lava kills enters its death animation, like one killed by a projectile | high, not executed | `Enemies.LavaLeavesUndead` | `Enemies.LavaBurn` |
| services/storageService.ts:56-64 | the stored profile is merged over the defaults one top-level field at a time, so a stored rank table without `armor` replaces the default table whole. The missing rank then also gives NaN armour in `launchGame` (`upgrades.armor * 0.5`, App.tsx:399), but every damage site falls back to 0 for an armour that is not a number (systems/GameLoop.ts:461, 637, 748, 815, 822), so in play it acts as no armour | a profile saved before the armor rank existed, with any number of credits | every missing rank takes its default of 0 | medium, not executed | `Storage.OldProfileCannotBuyArmor` | `Storage.OldProfileBuysArmor` |
