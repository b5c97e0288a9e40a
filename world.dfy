/**
 * The state one frame of the simulation reads and writes: the player record,
 * the in-place entity lists, the time state, the screen-shake, feedback,
 * score and kill counters, and the notifications the frame raises. The
 * stages that touch only the player, the spawner, loot, particles,
 * indicators and the player's hazards live here as methods of `World`.
 */
module GameLoop {
  import opened Types
  import opened Util
  import opened Sprites
  import opened Combat
  import opened Waves

  /** What a frame reports to the surrounding application. */
  datatype Event =
    | VoidEventRequested            // every 1800 frames
    | BossWarning                   // a boss enters
    | LevelUpReached                // the player reached the next level
    | GameOverReached(score: int, kills: int)

  /** The trigonometry the frame loop uses; it is supplied, not modelled. */
  datatype Geometry = Geometry(
    atan2: (real, real) -> real,
    cos: real -> real,
    sin: real -> real,
    sqrt: real -> real,
    pi: real)

  ghost predicate AllEnemiesOk(s: seq<Enemy>)
  {
    forall i :: 0 <= i < |s| ==> EnemyOk(s[i])
  }

  predicate Rewarded(e: Enemy) { e.rewardsProcessed }

  /** Projectiles never heal and never have a negative blast radius. */
  ghost predicate ProjectilesOk(ps: seq<Projectile>)
  {
    forall i :: 0 <= i < |ps| ==> ps[i].damage >= 0.0 && ps[i].aoeRadius >= 0.0
  }

  lemma ProjectilesAppend(a: seq<Projectile>, b: seq<Projectile>)
    requires ProjectilesOk(a) && ProjectilesOk(b)
    ensures ProjectilesOk(a + b)
  {
    assert forall i :: |a| <= i < |a + b| ==> (a + b)[i] == b[i - |a|];
  }

  /** Every enemy is well-formed, and no projectile, loot or hazard carries a negative amount. */
  ghost predicate ListsOk(enemies: seq<Enemy>, projectiles: seq<Projectile>, loot: seq<Loot>, hazards: seq<Hazard>)
  {
    && AllEnemiesOk(enemies)
    && ProjectilesOk(projectiles)
    && LootOk(loot)
    && PoolsOk(hazards)
  }

  /** No loot is worth a negative amount. */
  ghost predicate LootOk(ls: seq<Loot>) { forall i :: 0 <= i < |ls| ==> ls[i].value >= 0.0 }

  /** No lava pool heals. */
  ghost predicate PoolsOk(hz: seq<Hazard>) { forall k :: 0 <= k < |hz| ==> hz[k].damage >= 0.0 }

  class World {
    const player: Player
    const geo: Geometry
    /** The stream of `Math.random()` draws: `random(i)` is the i-th draw. */
    const random: nat -> real
    var draws: nat
    var width: real
    var height: real
    var currentMap: GameMap
    var enemies: seq<Enemy>
    var projectiles: seq<Projectile>
    var loot: seq<Loot>
    var particles: seq<Particle>
    var hazards: seq<Hazard>
    var indicators: seq<DamageIndicator>
    // timeState
    var totalTime: int
    var spawnTimer: int
    var spawnRate: int
    var enemySpeedMult: real
    var difficultyMult: real
    var shake: real
    var feedbackTimer: int
    var score: int
    var kills: int
    var events: seq<Event>

    /** The player's own invariant plus a well-formed animation. */
    ghost predicate PlayerOk()
      reads player
    {
      player.Valid() && PlayerAnimOk(Anim(player.state, player.frame, player.frameTimer))
    }

    /** Every value of `Math.random` lies in [0, 1). */
    ghost predicate StreamOk()
    {
      forall i: nat :: 0.0 <= random(i) < 1.0
    }

    /** The time state and the counters. */
    ghost predicate CountersOk()
      reads this`width, this`height, this`totalTime, this`spawnTimer, this`spawnRate, this`difficultyMult,
            this`shake, this`feedbackTimer, this`kills, this`score
    {
      && width >= 0.0 && height >= 0.0
      && totalTime >= 0 && spawnTimer >= 0 && spawnRate >= 2
      && difficultyMult >= 1.0
      && shake >= 0.0 && feedbackTimer >= 0
      && kills >= 0 && score == 10 * kills
    }

    /** The entity lists. */
    ghost predicate EntitiesOk()
      reads this`enemies, this`projectiles, this`loot, this`hazards
    {
      ListsOk(enemies, projectiles, loot, hazards)
    }

    ghost predicate Valid()
      reads player, this`width, this`height, this`totalTime, this`spawnTimer, this`spawnRate, this`difficultyMult
      reads this`shake, this`feedbackTimer, this`kills, this`score
      reads this`enemies, this`projectiles, this`loot, this`hazards
    {
      PlayerOk() && StreamOk() && CountersOk() && EntitiesOk()
    }

    /** The canvas refs as first mounted: empty lists and the initial time state. */
    constructor (player: Player, gameMap: GameMap, width: real, height: real, geo: Geometry, random: nat -> real)
      requires player.Valid() && PlayerAnimOk(Anim(player.state, player.frame, player.frameTimer))
      requires forall i: nat :: 0.0 <= random(i) < 1.0
      requires width >= 0.0 && height >= 0.0
      ensures Valid()
      ensures this.player == player && this.currentMap == gameMap && this.width == width && this.height == height
      ensures this.geo == geo && this.random == random && draws == 0
      ensures enemies == [] && projectiles == [] && loot == [] && particles == [] && hazards == [] && indicators == []
      ensures totalTime == 0 && spawnTimer == 0 && spawnRate == 60 && enemySpeedMult == 1.0 && difficultyMult == 1.0
      ensures shake == 0.0 && feedbackTimer == 0 && score == 0 && kills == 0 && events == []
    {
      this.player, this.geo, this.random, draws := player, geo, random, 0;
      this.width, this.height, this.currentMap := width, height, gameMap;
      enemies, projectiles, loot, particles, hazards, indicators := [], [], [], [], [], [];
      totalTime, spawnTimer, spawnRate, enemySpeedMult, difficultyMult := 0, 0, 60, 1.0, 1.0;
      shake, feedbackTimer, score, kills, events := 0.0, 0, 0, 0, [];
    }

    /** One `Math.random()` draw. */
    method Random() returns (r: real)
      requires forall i: nat :: 0.0 <= random(i) < 1.0
      modifies this`draws
      ensures r == random(old(draws)) && draws == old(draws) + 1
      ensures 0.0 <= r < 1.0
    {
      r := random(draws);
      draws := draws + 1;
    }

    /** Writes enemy `i` back after a stage of its turn. */
    method PutEnemy(i: nat, e: Enemy)
      requires Valid() && i < |enemies| && EnemyOk(e)
      modifies this`enemies
      ensures Valid() && enemies == old(enemies)[i := e]
    {
      enemies := enemies[i := e];
    }

    /** A kill counts: +10 score, +1 kill, and the screen shakes by `shakeTo`. */
    method CountKill(shakeTo: real)
      requires Valid() && shakeTo >= 0.0
      modifies this`score, this`kills, this`shake
      ensures Valid()
      ensures score == old(score) + 10 && kills == old(kills) + 1 && shake == shakeTo
    {
      score, kills, shake := score + 10, kills + 1, shakeTo;
    }

    /** Drops a piece of loot. */
    method DropLoot(l: Loot)
      requires Valid() && l.value >= 0.0
      modifies this`loot
      ensures Valid() && loot == old(loot) + [l]
    {
      loot := loot + [l];
    }

    /** Replaces the projectile list. */
    method PutProjectiles(ps: seq<Projectile>)
      requires Valid() && ProjectilesOk(ps)
      modifies this`projectiles
      ensures Valid() && projectiles == ps
    {
      projectiles := ps;
    }

    /** The time state back to its start. */
    method RestartClock()
      requires Valid()
      modifies this`totalTime, this`spawnTimer, this`spawnRate, this`enemySpeedMult, this`difficultyMult
      ensures Valid()
      ensures totalTime == 0 && spawnTimer == 0 && spawnRate == 60 && enemySpeedMult == 1.0 && difficultyMult == 1.0
    {
      totalTime, spawnTimer, spawnRate, enemySpeedMult, difficultyMult := 0, 0, 60, 1.0, 1.0;
    }

    /** Every entity list emptied, the hazards replaced by `pools`. */
    method ClearLists(pools: seq<Hazard>)
      requires Valid() && PoolsOk(pools)
      modifies this`hazards, this`enemies, this`projectiles, this`loot, this`particles, this`indicators
      ensures Valid()
      ensures hazards == pools && enemies == [] && projectiles == [] && loot == [] && particles == [] && indicators == []
    {
      hazards, enemies, projectiles, loot, particles, indicators := pools, [], [], [], [], [];
    }

    /** Score and kills back to zero, on map `m`. */
    method ClearScore(m: GameMap)
      requires Valid()
      modifies this`currentMap, this`score, this`kills
      ensures Valid()
      ensures currentMap == m && score == 0 && kills == 0
    {
      currentMap, score, kills := m, 0, 0;
    }

    /** A fresh round on map `m`: the clock restarted, every list emptied, the hazards `pools`, no score. */
    method Reset(m: GameMap, pools: seq<Hazard>)
      requires Valid() && PoolsOk(pools)
      modifies this`hazards, this`enemies, this`projectiles, this`loot, this`particles, this`indicators
      modifies this`totalTime, this`spawnTimer, this`spawnRate, this`enemySpeedMult, this`difficultyMult
      modifies this`currentMap, this`score, this`kills
      ensures Valid()
      ensures hazards == pools && enemies == [] && projectiles == [] && loot == [] && particles == [] && indicators == []
      ensures totalTime == 0 && spawnTimer == 0 && spawnRate == 60 && enemySpeedMult == 1.0 && difficultyMult == 1.0
      ensures currentMap == m && score == 0 && kills == 0
    {
      ClearLists(pools);
      RestartClock();
      ClearScore(m);
    }

    /** Replaces the enemy list. */
    method PutEnemies(es: seq<Enemy>)
      requires Valid() && AllEnemiesOk(es)
      modifies this`enemies
      ensures Valid() && enemies == es
    {
      enemies := es;
    }

    /** Replaces the loot list. */
    method PutLoot(ls: seq<Loot>)
      requires Valid() && LootOk(ls)
      modifies this`loot
      ensures Valid() && loot == ls
    {
      loot := ls;
    }

    /** Writes the player's experience, threshold, level and health back after a stage. */
    method SetProgress(xp: real, threshold: int, level: int, hp: real)
      requires Valid() && xp >= 0.0 && threshold >= 100 && level >= 1 && hp <= player.maxHp
      modifies player`xp, player`xpToNextLevel, player`level, player`hp
      ensures Valid()
      ensures player.xp == xp && player.xpToNextLevel == threshold && player.level == level && player.hp == hp
    {
      player.xp, player.xpToNextLevel, player.level, player.hp := xp, threshold, level, hp;
    }

    /** Writes the hazards' effect back: the player's health, which only drops, the shake, the damage numbers and the events. */
    method Scorch(hp: real, shake: real, inds: seq<DamageIndicator>, evs: seq<Event>)
      requires Valid() && hp <= player.hp && shake >= 0.0
      modifies player`hp, this`shake, this`indicators, this`events
      ensures Valid() && player.hp == hp && this.shake == shake && indicators == inds && events == evs
    {
      player.hp, this.shake := hp, shake;
      indicators, events := inds, evs;
    }

    /** `spawnDamageIndicator`: a floating number showing the rounded-up value. */
    method AddIndicator(value: real, isPlayer: bool, isCrit: bool)
      modifies this`indicators
      ensures indicators == old(indicators) + [DamageIndicator(Ceil(value), 1.0, isPlayer, isCrit)]
    {
      indicators := indicators + [DamageIndicator(Ceil(value), 1.0, isPlayer, isCrit)];
    }

    /**
     * A hit on the player that got past the caller's guard: an active shield
     * absorbs it and is spent; otherwise armour reduces it to at least one
     * point, the player enters the hurt animation, and a fatal hit reports
     * game over with the current score and kills.
     */
    method StrikePlayer(dmg: real)
      requires Valid()
      modifies player`hp, player`state, player`frame, player`abilityActiveTimer
      modifies this`shake, this`feedbackTimer, this`indicators, this`events
      ensures Valid()
      ensures feedbackTimer == 30
      ensures ShieldActive(player.activeAbility, old(player.abilityActiveTimer)) ==>
        && player.hp == old(player.hp) && player.abilityActiveTimer == 0
        && player.state == old(player.state) && player.frame == old(player.frame)
        && shake == old(shake) && events == old(events)
        && indicators == old(indicators) + [DamageIndicator(0, 1.0, false, false)]
      ensures !ShieldActive(player.activeAbility, old(player.abilityActiveTimer)) ==>
        && player.hp == old(player.hp) - ArmorDamage(dmg, player.armor)
        && player.hp <= old(player.hp) - 1.0
        && player.abilityActiveTimer == old(player.abilityActiveTimer)
        && player.state == Hurt && player.frame == 0 && shake == 10.0
        && indicators == old(indicators) + [PlayerHitIndicator(ArmorDamage(dmg, player.armor))]
        && events == old(events) + GameOverIf(player.hp, score, kills)
    {
      if ShieldActive(player.activeAbility, player.abilityActiveTimer) {
        AbsorbHit();
      } else {
        TakeHit(dmg);
      }
    }

    /** An active shield absorbs the hit and is spent. */
    method AbsorbHit()
      requires Valid()
      modifies player`abilityActiveTimer, this`feedbackTimer, this`indicators
      ensures Valid()
      ensures player.abilityActiveTimer == 0 && feedbackTimer == 30
      ensures indicators == old(indicators) + [DamageIndicator(0, 1.0, false, false)]
    {
      player.abilityActiveTimer := 0;
      feedbackTimer := 30;
      indicators := indicators + [DamageIndicator(0, 1.0, false, false)];
    }

    /** Armour reduces the hit to at least one point; a fatal hit reports game over. */
    method TakeHit(dmg: real)
      requires Valid()
      modifies player`hp, player`state, player`frame, this`shake, this`feedbackTimer, this`indicators, this`events
      ensures Valid()
      ensures player.hp == old(player.hp) - ArmorDamage(dmg, player.armor) && player.hp <= old(player.hp) - 1.0
      ensures player.state == Hurt && player.frame == 0 && shake == 10.0 && feedbackTimer == 30
      ensures indicators == old(indicators) + [PlayerHitIndicator(ArmorDamage(dmg, player.armor))]
      ensures events == old(events) + GameOverIf(player.hp, score, kills)
    {
      var d := ArmorDamage(dmg, player.armor);
      player.Hurt(d);
      indicators := indicators + [PlayerHitIndicator(d)];
      shake, feedbackTimer := 10.0, 30;
      events := events + GameOverIf(player.hp, score, kills);
    }

    /**
     * `spawnEnemy`: a new enemy of `kind` on the ring outside the canvas (a
     * swarmer jittered around it), with the stat table's stats, full health,
     * walking and not yet rewarded. A boss raises its warning.
     */
    method SpawnEnemy(kind: EnemyKind, xpMult: real)
      requires Valid() && xpMult >= 0.0
      modifies this`enemies, this`draws, this`events
      ensures Valid()
      ensures |enemies| == |old(enemies)| + 1 && enemies[..|old(enemies)|] == old(enemies)
      ensures var e := enemies[|enemies| - 1];
        && e.kind == kind && e.hp == e.maxHp && e.hp > 0.0
        && e.state == Walk && e.frame == 0 && e.frameTimer == 0 && !e.rewardsProcessed && !e.marked
        && Stats(e.hp, e.speed, e.radius, e.damage, e.value, e.knockbackResist)
           == old(SpawnStats(kind, difficultyMult, enemySpeedMult, totalTime, currentMap.id, xpMult))
        && (kind != Swarmer ==> OnSpawnRing(e.x, e.y, old(width), old(height)))
        && (kind != Rusher ==> e.vx == 0.0 && e.vy == 0.0)
      ensures events == old(events) + (if kind == Boss then [BossWarning] else [])
      ensures draws == old(draws) + (if kind == Swarmer then 4 else 2)
    {
      var d := draws;
      var p := SpawnPoint(SpawnDraw(random(d), random(d + 1), 0.0, 0.0), width, height);
      var ex, ey := p.0, p.1;
      var s := SpawnStats(kind, difficultyMult, enemySpeedMult, totalTime, currentMap.id, xpMult);
      var vx, vy := 0.0, 0.0;
      var used := 2;
      if kind == Rusher {
        var angle := geo.atan2(player.y - ey, player.x - ex);
        vx, vy := geo.cos(angle) * s.speed, geo.sin(angle) * s.speed;
      } else if kind == Swarmer {
        ex, ey := ex + (random(d + 2) - 0.5) * 40.0, ey + (random(d + 3) - 0.5) * 40.0;
        used := 4;
      }
      var e := Enemy(kind, ex, ey, vx, vy, s.radius, s.hp, s.hp, s.speed, s.damage, s.value, s.knockbackResist,
                     Walk, 0, 0, false, false);
      assert EnemyOk(e);
      enemies := enemies + [e];
      draws := d + used;
      events := events + (if kind == Boss then [BossWarning] else []);
    }

    /** Time advances; every 1800 frames difficulty grows by 0.1 and a void event is requested. */
    method AdvanceClock()
      requires Valid()
      modifies this`totalTime, this`difficultyMult, this`events
      ensures Valid()
      ensures totalTime == old(totalTime) + 1
      ensures difficultyMult == old(difficultyMult) + (if totalTime % 1800 == 0 then 0.1 else 0.0)
      ensures events == old(events) + (if totalTime % 1800 == 0 then [VoidEventRequested] else [])
    {
      var t := totalTime + 1;
      if t % 1800 == 0 {
        totalTime, difficultyMult, events := t, difficultyMult + 0.1, events + [VoidEventRequested];
      } else {
        totalTime := t;
      }
    }

    /** A boss enters, and the screen shakes, on every frame that is a multiple of 10800. */
    method BossStep()
      requires Valid()
      modifies this`enemies, this`draws, this`events, this`shake
      ensures Valid()
      ensures |enemies| >= |old(enemies)| && enemies[..|old(enemies)|] == old(enemies)
      ensures IsBossFrame(totalTime) ==>
        && |enemies| == |old(enemies)| + 1 && enemies[|old(enemies)|].kind == Boss
        && shake == 50.0 && events == old(events) + [BossWarning] && draws == old(draws) + 2
      ensures !IsBossFrame(totalTime) ==>
        enemies == old(enemies) && shake == old(shake) && events == old(events) && draws == old(draws)
    {
      if IsBossFrame(totalTime) {
        SpawnEnemy(Boss, 1.0);
        shake := 50.0;
      }
    }

    /** One roll of the type table spawns a single enemy, or a group of three swarmers. */
    method SpawnGroup(kind: EnemyKind, xpMult: real)
      requires Valid() && xpMult >= 0.0 && kind != Boss
      modifies this`enemies, this`draws, this`events
      ensures Valid() && events == old(events)
      ensures |enemies| == |old(enemies)| + SpawnCount(kind) && enemies[..|old(enemies)|] == old(enemies)
      ensures forall i :: |old(enemies)| <= i < |enemies| ==> enemies[i].kind == kind
    {
      SpawnEnemy(kind, xpMult);
      if kind == Swarmer {
        SpawnEnemy(Swarmer, xpMult);
        SpawnEnemy(Swarmer, xpMult);
      }
    }

    /**
     * The spawn rate follows the wave table (30% faster on the hardest map);
     * when the spawn timer reaches it, the timer restarts and one roll in
     * [0, 100) picks the group to spawn.
     */
    method RegularSpawn(c: WaveConfig, minutes: nat)
      requires Valid() && 10 <= c.spawnInterval
      modifies this`spawnRate, this`spawnTimer, this`enemies, this`draws, this`events
      ensures Valid() && events == old(events)
      ensures spawnRate == SpawnInterval(currentMap.id, c.spawnInterval)
      ensures spawnTimer == (if old(spawnTimer) + 1 >= spawnRate then 0 else old(spawnTimer) + 1)
      ensures |enemies| >= |old(enemies)| && enemies[..|old(enemies)|] == old(enemies)
      ensures var kind := PickKind(c.weights, 100.0 * random(old(draws)));
        && |enemies| == |old(enemies)| + (if spawnTimer == 0 then SpawnCount(kind) else 0)
        && forall i :: |old(enemies)| <= i < |enemies| ==> enemies[i].kind == kind
    {
      var rate := SpawnInterval(currentMap.id, c.spawnInterval);
      var timer := spawnTimer + 1;
      if timer >= rate {
        spawnRate, spawnTimer := rate, 0;
        var kind := PickKind(c.weights, random(draws) * 100.0);
        assert random(draws) * 100.0 == 100.0 * random(draws);
        draws := draws + 1;
        SpawnGroup(kind, SpawnXpMult(minutes));
      } else {
        spawnRate, spawnTimer := rate, timer;
      }
    }

    /**
     * Movement: the caller supplies the input direction (a unit vector or
     * zero); a dash triples the speed; the player stays inside the canvas and
     * faces the horizontal direction of travel.
     */
    method MovePlayer(dx: real, dy: real)
      requires Valid()
      modifies player`x, player`y, player`facing
      ensures Valid()
      ensures (player.x, player.y) == old(MoveTarget(player.x, player.y, dx, dy,
        MoveSpeed(player.activeAbility, player.abilityActiveTimer, player.speed), width, height, player.radius))
      ensures player.facing == (if dx > 0.0 then 1 else if dx < 0.0 then -1 else old(player.facing))
    {
      var t := MoveTarget(player.x, player.y, dx, dy,
        MoveSpeed(player.activeAbility, player.abilityActiveTimer, player.speed), width, height, player.radius);
      player.x, player.y := t.0, t.1;
      if dx > 0.0 { player.facing := 1; }
      if dx < 0.0 { player.facing := -1; }
    }

    /** The player's animation advances one frame by the player state machine. */
    method AnimatePlayer(moving: bool)
      requires Valid()
      modifies player`state, player`frame, player`frameTimer
      ensures Valid()
      ensures Anim(player.state, player.frame, player.frameTimer)
        == PlayerAnimStep(Anim(old(player.state), old(player.frame), old(player.frameTimer)), player.hp, moving)
    {
      var state, frame, timer := player.state, player.frame, player.frameTimer + 1;
      if player.hp <= 0.0 && state != Death {
        state, frame := Death, 0;
      }
      if state == Death {
        if timer > 5 {
          timer := 0;
          if frame < KnightFrames(Death) - 1 { frame := frame + 1; }
        }
      } else if state == Hurt {
        if timer > 5 {
          timer := 0;
          if frame < KnightFrames(Hurt) - 1 {
            frame := frame + 1;
          } else {
            state, frame := Idle, 0;
          }
        }
      } else if state == Attack {
        if timer > 4 {
          timer := 0;
          if frame < KnightFrames(Attack) - 1 {
            frame := frame + 1;
          } else {
            state, frame := Idle, 0;
          }
        }
      } else {
        var s := if moving then Walk else Idle;
        if state != s {
          state, frame := s, 0;
        }
        if timer > 5 {
          timer := 0;
          frame := (frame + 1) % KnightFrames(s);
        }
      }
      assert Anim(state, frame, timer) == PlayerAnimStep(Anim(player.state, player.frame, player.frameTimer), player.hp, moving);
      player.state, player.frame, player.frameTimer := state, frame, timer;
    }

    /**
     * `triggerAbility`: nothing while the ability recharges; otherwise the
     * recharge starts and the ability runs for its duration. A nova deals 20
     * times the first weapon's damage to every living enemy, knocking it
     * back, and shows one critical indicator per enemy hit.
     */
    method TriggerAbility()
      requires Valid()
      modifies player`abilityTimer, player`abilityActiveTimer, this`shake, this`enemies, this`indicators
      ensures Valid()
      ensures old(player.abilityTimer) > 0.0 ==>
        player.abilityTimer == old(player.abilityTimer) && player.abilityActiveTimer == old(player.abilityActiveTimer)
      ensures old(player.abilityTimer) <= 0.0 ==>
        player.abilityTimer == player.abilityCooldown && player.abilityActiveTimer == AbilityDuration(player.activeAbility)
      ensures (old(player.abilityTimer) > 0.0 || player.activeAbility != Nova) ==>
        shake == old(shake) && enemies == old(enemies) && indicators == old(indicators)
      ensures old(player.abilityTimer) <= 0.0 && player.activeAbility == Nova ==>
        && shake == 30.0
        && enemies == NovaSweep(old(enemies), NovaDamage(player.weapons[0]), player.x, player.y, geo)
        && indicators == old(indicators) + NovaIndicators(old(enemies), NovaDamage(player.weapons[0]))
    {
      if player.abilityTimer <= 0.0 {
        var dmg := NovaDamage(player.weapons[0]);
        player.StartAbility(AbilityDuration(player.activeAbility));
        if player.activeAbility == Nova {
          NovaBlast(dmg);
        }
      }
    }

    /** The nova's effect on the world: the screen shakes and every living enemy is hit. */
    method NovaBlast(dmg: real)
      requires Valid() && dmg >= 0.0
      modifies this`shake, this`enemies, this`indicators
      ensures Valid()
      ensures shake == 30.0
      ensures enemies == NovaSweep(old(enemies), dmg, player.x, player.y, geo)
      ensures indicators == old(indicators) + NovaIndicators(old(enemies), dmg)
    {
      var swept, hits := SweepNova(enemies, dmg, player.x, player.y, geo);
      enemies, indicators, shake := swept, indicators + Repeat(DamageIndicator(Ceil(dmg), 1.0, false, true), hits), 30.0;
      assert Repeat(DamageIndicator(Ceil(dmg), 1.0, false, true), hits) == NovaIndicators(old(enemies), dmg);
    }

    /** Both ability counters count down by one per frame while positive. */
    method TickAbilityTimers()
      requires Valid()
      modifies player`abilityTimer, player`abilityActiveTimer
      ensures Valid()
      ensures player.abilityTimer == TickDownReal(old(player.abilityTimer))
      ensures player.abilityActiveTimer == TickDown(old(player.abilityActiveTimer))
    {
      if player.abilityTimer > 0.0 { player.abilityTimer := player.abilityTimer - 1.0; }
      if player.abilityActiveTimer > 0 { player.abilityActiveTimer := player.abilityActiveTimer - 1; }
    }
  }

  predicate IsAlive(e: Enemy) { e.hp > 0.0 }

  /** `n` copies of `x`. */
  function Repeat<T>(x: T, n: nat): (r: seq<T>)
    ensures |r| == n && forall i :: 0 <= i < n ==> r[i] == x
  {
    if n == 0 then [] else Repeat(x, n - 1) + [x]
  }

  /** The indicator shown over the player for damage taken. */
  function PlayerHitIndicator(d: real): (r: DamageIndicator)
    ensures r.isPlayer && !r.isCrit && r.life == 1.0 && r.value as real >= d
  {
    DamageIndicator(Ceil(d), 1.0, true, false)
  }

  /** `onGameOver` fires when a hit leaves the player without health. */
  function GameOverIf(hp: real, score: int, kills: int): (r: seq<Event>)
    ensures hp <= 0.0 <==> r == [GameOverReached(score, kills)]
    ensures hp > 0.0 <==> r == []
  {
    if hp <= 0.0 then [GameOverReached(score, kills)] else []
  }

  /** A nova hits for twenty times the first weapon's damage. */
  function NovaDamage(w: Weapon): (d: real)
    ensures w.damage >= 0.0 ==> d >= 0.0
  {
    w.damage * 20.0
  }

  /** One critical indicator per living enemy the nova hits. */
  function NovaIndicators(es: seq<Enemy>, dmg: real): (r: seq<DamageIndicator>)
    ensures |r| == Count(es, IsAlive)
  {
    Repeat(DamageIndicator(Ceil(dmg), 1.0, false, true), Count(es, IsAlive))
  }

  /**
   * What a nova does to one enemy: a living enemy takes the damage (its hurt
   * animation restarts) and is pushed away from the player by a force that
   * its knockback resistance reduces; a dead one is skipped.
   */
  function NovaHit(e: Enemy, dmg: real, px: real, py: real, geo: Geometry): (r: Enemy)
    ensures IsAlive(e) ==> r.(vx := e.vx, vy := e.vy) == DamageEnemy(e, dmg, true)
    ensures !IsAlive(e) ==> r == e
  {
    if IsAlive(e) then
      var angle := geo.atan2(e.y - py, e.x - px);
      var force := 150.0 * (1.0 - e.knockbackResist);
      DamageEnemy(e, dmg, true).(vx := e.vx + geo.cos(angle) * (force * 0.1),
                                 vy := e.vy + geo.sin(angle) * (force * 0.1))
    else e
  }

  /** The nova applied to every enemy of the list, in place. */
  function NovaSweep(es: seq<Enemy>, dmg: real, px: real, py: real, geo: Geometry): (r: seq<Enemy>)
    ensures |r| == |es| && forall i :: 0 <= i < |es| ==> r[i] == NovaHit(es[i], dmg, px, py, geo)
    ensures dmg >= 0.0 && AllEnemiesOk(es) ==> AllEnemiesOk(r)
  {
    if es == [] then [] else [NovaHit(es[0], dmg, px, py, geo)] + NovaSweep(es[1..], dmg, px, py, geo)
  }

  /**
   * The nova's loop over the living enemies: returns the swept list and how
   * many enemies it hit.
   */
  method SweepNova(es: seq<Enemy>, dmg: real, px: real, py: real, geo: Geometry) returns (out: seq<Enemy>, hits: nat)
    ensures out == NovaSweep(es, dmg, px, py, geo)
    ensures hits == Count(es, IsAlive)
  {
    out, hits := es, 0;
    var i := 0;
    while i < |es|
      invariant 0 <= i <= |es| && |out| == |es|
      invariant forall k :: 0 <= k < i ==> out[k] == NovaHit(es[k], dmg, px, py, geo)
      invariant forall k :: i <= k < |es| ==> out[k] == es[k]
      invariant hits == Count(es[..i], IsAlive)
    {
      assert es[..i + 1] == es[..i] + [es[i]];
      CountAppend(es[..i], [es[i]], IsAlive);
      out := out[i := NovaHit(es[i], dmg, px, py, geo)];
      if IsAlive(es[i]) {
        hits := hits + 1;
      }
      i := i + 1;
    }
    assert es[..i] == es;
  }

  /** Movement speed: tripled while a dash is active. */
  function MoveSpeed(a: AbilityType, activeTimer: int, speed: real): (r: real)
    ensures DashActive(a, activeTimer) ==> r == 3.0 * speed
    ensures !DashActive(a, activeTimer) ==> r == speed
  {
    if DashActive(a, activeTimer) then speed * 3.0 else speed
  }

  /** `Math.max(lo, Math.min(hi, v))`. */
  function Clamp(lo: real, hi: real, v: real): (r: real)
    ensures lo <= hi ==> lo <= r <= hi
    ensures lo <= v <= hi ==> r == v
  {
    MaxR(lo, MinR(hi, v))
  }

  /**
   * Where one frame of movement takes a body of radius r: the step is
   * clamped so the body stays within a w by h canvas whenever it fits.
   */
  function MoveTarget(x: real, y: real, dx: real, dy: real, speed: real, w: real, h: real, r: real): (p: (real, real))
    ensures w >= 2.0 * r ==> r <= p.0 <= w - r
    ensures h >= 2.0 * r ==> r <= p.1 <= h - r
    ensures r <= x + dx * speed <= w - r ==> p.0 == x + dx * speed
    ensures r <= y + dy * speed <= h - r ==> p.1 == y + dy * speed
  {
    (Clamp(r, w - r, x + dx * speed), Clamp(r, h - r, y + dy * speed))
  }
}
