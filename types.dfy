/**
 * The entity model of the game: every record the simulation core passes around.
 *
 * Tags that the code uses but the declared types omit are part of the closed
 * variants here: the `sword` weapon, the `grass_lands` map, the `melee`
 * projectile behaviour, the `enemy` projectile owner and the `armor` meta upgrade.
 * Colours, sprite images and ids drawn from `Math.random()` are presentation or
 * randomness and are not part of the records, except projectile ids, which the
 * orbital weapon inspects.
 */
module Types {

  datatype GameState = Menu | Preparation | Playing | Paused | LevelUp | GameOver | Shop

  datatype AbilityType = Dash | Shield | Nova

  datatype WeaponType = Pistol | Shotgun | Sword | Orbital | Boomerang | Molotov | Lightning

  datatype MapId = GrassLands | Void | NeonCity | CrimsonWaste

  datatype HazardType = NoHazard | ElectricWalls | LavaPools

  /** A map configuration, injected read-only at scene setup. */
  datatype GameMap = GameMap(id: MapId, name: string, creditsMultiplier: real, hazardType: HazardType)

  datatype EnemyKind = Basic | Rusher | Goliath | Swarmer | Boss

  /** Animation states of the player and of the animated enemy kinds. */
  datatype AnimState = Idle | Walk | Attack | Hurt | Death

  /** Projectile behaviours; `MeleeArc` is the sword's hitbox. */
  datatype Behavior = StraightShot | OrbitShot | BoomerangShot | LobShot | HazardZone | LightningBeam | MeleeArc

  /** Who fired a projectile: enemy projectiles only ever hurt the player. */
  datatype Owner = ByPlayer | ByEnemy

  datatype LootType = XpLoot | HealthLoot

  datatype Weapon = Weapon(
    id: string,
    kind: WeaponType,
    name: string,
    rank: int,              // documented as 1..5
    cooldown: real,         // frames between shots; fractional once cooldown upgrades apply
    timer: real,            // frames until the next shot
    damage: real,
    projectileCount: int,
    projectileSpeed: real,
    duration: int,          // life of a projectile, in frames
    active: bool)

  datatype Enemy = Enemy(
    kind: EnemyKind,
    x: real, y: real, vx: real, vy: real,
    radius: real,
    hp: real, maxHp: real,
    speed: real,
    damage: real,
    value: real,            // XP dropped on death
    knockbackResist: real,  // 0 = full knockback, 1 = immovable
    state: AnimState, frame: int, frameTimer: int,
    rewardsProcessed: bool,
    marked: bool)

  datatype Projectile = Projectile(
    id: string,
    owner: Owner,
    x: real, y: real, vx: real, vy: real,
    radius: real,
    damage: real,
    duration: int,
    pierce: int,
    behavior: Behavior,
    aoeRadius: real,        // 0 stands for "not set"
    isMaxRank: bool,
    marked: bool)

  datatype Loot = Loot(x: real, y: real, radius: real, value: real, kind: LootType, marked: bool)

  /** A visual particle: only its lifetime is modelled. */
  datatype Particle = Particle(life: real, decay: real, marked: bool)

  /** A floating damage number: its value and lifetime (motion is visual only). */
  datatype DamageIndicator = DamageIndicator(value: int, life: real, isPlayer: bool, isCrit: bool)

  /** A static lava pool of the map. */
  datatype Hazard = Hazard(id: string, x: real, y: real, radius: real, damage: real)

  datatype LeaderboardEntry = LeaderboardEntry(
    name: string, score: int, wave: int, mapId: MapId, mapName: string, date: string, weapon: WeaponType)

  datatype MetaUpgradeId = HealthUp | ArmorUp | DamageUp | SpeedUp | XpUp | MagnetUp

  /** A meta-progression profile; `upgrades` maps each meta upgrade to its rank. */
  datatype UserProfile = UserProfile(credits: nat, upgrades: map<MetaUpgradeId, nat>)

  /** A weapon's rank starts at one, its damage is never negative and it fires at least one projectile. */
  predicate WeaponOk(w: Weapon) {
    w.rank >= 1 && w.damage >= 0.0 && w.projectileCount >= 1
  }

  predicate IsAnimated(k: EnemyKind) {
    k == Basic || k == Swarmer || k == Goliath
  }

  /**
   * The player record: one instance per session, mutated in place by the
   * frame loop and by the upgrade handlers.
   */
  class Player {
    var x: real
    var y: real
    const radius: real
    var hp: real
    var maxHp: real
    var speed: real
    var armor: real
    var level: int
    var xp: real
    var xpToNextLevel: int
    var pickupRange: real
    // statModifiers
    var damageMod: real
    var cooldownMod: real
    var xpMultiplier: real
    var weapons: seq<Weapon>
    var activeAbility: AbilityType
    var abilityCooldown: real    // frames of cooldown after an activation
    var abilityTimer: real       // frames until the ability is ready (<= 0: ready)
    var abilityActiveTimer: int  // remaining active frames
    var state: AnimState
    var frame: int
    var frameTimer: int
    var facing: int

    /** What every player record satisfies between frames. */
    ghost predicate Valid()
      reads this
    {
      && hp <= maxHp
      && level >= 1
      && xp >= 0.0
      && xpToNextLevel >= 100
      && damageMod >= 0.0
      && xpMultiplier >= 0.0
      && |weapons| >= 1
      && (forall i :: 0 <= i < |weapons| ==> WeaponOk(weapons[i]))
      && abilityCooldown > 0.0
      && abilityTimer > -1.0
      && abilityActiveTimer >= 0
      && frameTimer >= 0
      && (facing == 1 || facing == -1)
    }

    /** Loses `d` hit points and restarts the hurt animation. */
    method Hurt(d: real)
      requires Valid() && d >= 0.0
      modifies this`hp, this`state, this`frame
      ensures Valid()
      ensures hp == old(hp) - d && state == AnimState.Hurt && frame == 0
    {
      hp, state, frame := hp - d, AnimState.Hurt, 0;
    }

    /** The ability fires: the recharge starts and it runs for `duration` frames. */
    method StartAbility(duration: int)
      requires Valid() && duration >= 0
      modifies this`abilityTimer, this`abilityActiveTimer
      ensures Valid()
      ensures abilityTimer == abilityCooldown && abilityActiveTimer == duration
    {
      abilityTimer, abilityActiveTimer := abilityCooldown, duration;
    }

    /** The attack animation starts, facing `facing`. */
    method StartAttack(facing: int)
      requires Valid() && (facing == 1 || facing == -1)
      modifies this`facing, this`state, this`frame
      ensures Valid()
      ensures this.facing == facing && state == Attack && frame == 0
    {
      this.facing, state, frame := facing, Attack, 0;
    }

    /** Weapon `i`'s timer becomes `t`; nothing else about the weapon changes. */
    method SetWeaponTimer(i: nat, t: real)
      requires Valid() && i < |weapons|
      modifies this`weapons
      ensures Valid()
      ensures weapons == old(weapons[i := weapons[i].(timer := t)])
    {
      weapons := weapons[i := weapons[i].(timer := t)];
    }

    constructor (x: real, y: real, hp: real, speed: real, armor: real, pickupRange: real,
                 damageMod: real, xpMultiplier: real, starter: Weapon)
      requires damageMod >= 0.0 && xpMultiplier >= 0.0 && WeaponOk(starter)
      ensures Valid()
      ensures this.x == x && this.y == y && radius == 24.0
      ensures this.hp == hp && maxHp == hp && this.speed == speed && this.armor == armor
      ensures level == 1 && xp == 0.0 && xpToNextLevel == 100 && this.pickupRange == pickupRange
      ensures this.damageMod == damageMod && cooldownMod == 1.0 && this.xpMultiplier == xpMultiplier
      ensures weapons == [starter]
      ensures activeAbility == Dash && abilityCooldown == 120.0 && abilityTimer == 0.0 && abilityActiveTimer == 0
      ensures state == Idle && frame == 0 && frameTimer == 0 && facing == 1
    {
      this.x, this.y, radius := x, y, 24.0;
      this.hp, maxHp, this.speed, this.armor := hp, hp, speed, armor;
      level, xp, xpToNextLevel, this.pickupRange := 1, 0.0, 100, pickupRange;
      this.damageMod, cooldownMod, this.xpMultiplier := damageMod, 1.0, xpMultiplier;
      weapons := [starter];
      activeAbility, abilityCooldown, abilityTimer, abilityActiveTimer := Dash, 120.0, 0.0, 0;
      state, frame, frameTimer, facing := Idle, 0, 0, 1;
    }
  }
}
