/**
 * `updateGame`: one frame of the simulation, its stages in the source's
 * order. The input is the movement direction (already normalised, or zero)
 * and whether the ability key is held.
 */
module Frame {
  import opened Types
  import opened Waves
  import opened Combat
  import opened GameLoop
  import Weapons
  import Projectiles
  import Enemies
  import Pickups
  import Effects

  /** The minute and the second within it of a frame count, at 60 frames per second. */
  function Clock(totalTime: nat): (r: (nat, nat))
    ensures r.1 < 60
    ensures totalTime == r.0 * 3600 + r.1 * 60 + totalTime % 60
  {
    (totalTime / 3600, (totalTime % 3600) / 60)
  }

  /**
   * The director's part: time advances, difficulty grows every 1800 frames,
   * a boss enters every 10800 frames, and the wave table drives the spawner.
   */
  method DirectorPhase(w: World)
    requires w.Valid()
    modifies w`totalTime, w`difficultyMult, w`events, w`enemies, w`draws, w`shake, w`spawnRate, w`spawnTimer
    ensures w.Valid()
    ensures w.totalTime == old(w.totalTime) + 1
    ensures w.kills == old(w.kills)
    ensures |w.enemies| >= |old(w.enemies)| && w.enemies[..|old(w.enemies)|] == old(w.enemies)
  {
    w.AdvanceClock();
    w.BossStep();
    var clock := Clock(w.totalTime);
    var c := GetWaveConfig(clock.0, clock.1);
    w.RegularSpawn(c, clock.0);
  }

  /**
   * The player's part: the player moves at its speed (tripled by an active
   * dash) and stays on the canvas, faces the way it moves, advances its
   * animation, fires its ability when the key is held and the ability has
   * recharged, and both ability counters count down.
   */
  method PlayerPhase(w: World, dx: real, dy: real, space: bool)
    requires w.Valid()
    modifies w.player`x, w.player`y, w.player`facing, w.player`state, w.player`frame, w.player`frameTimer
    modifies w.player`abilityTimer, w.player`abilityActiveTimer, w`shake, w`enemies, w`indicators
    ensures w.Valid()
    ensures w.kills == old(w.kills) && |w.enemies| == |old(w.enemies)|
    ensures (w.player.x, w.player.y) == old(MoveTarget(w.player.x, w.player.y, dx, dy,
      MoveSpeed(w.player.activeAbility, w.player.abilityActiveTimer, w.player.speed), w.width, w.height, w.player.radius))
    ensures w.player.facing == (if dx > 0.0 then 1 else if dx < 0.0 then -1 else old(w.player.facing))
    ensures Anim(w.player.state, w.player.frame, w.player.frameTimer)
      == PlayerAnimStep(old(Anim(w.player.state, w.player.frame, w.player.frameTimer)), w.player.hp, dx != 0.0 || dy != 0.0)
    ensures AbilityKeyed(w, space)
  {
    w.MovePlayer(dx, dy);
    w.AnimatePlayer(dx != 0.0 || dy != 0.0);
    AbilityKey(w, space);
  }

  /**
   * The ability key, then the counters: a held key fires a recharged
   * ability, which restarts both counters (a nova also strikes every living
   * enemy); then both counters count down.
   */
  twostate predicate AbilityKeyed(w: World, space: bool)
    requires |w.player.weapons| > 0
    reads w, w.player
  {
    var fired := space && old(w.player.abilityTimer) <= 0.0;
    && (!fired ==> w.player.abilityTimer == TickDownReal(old(w.player.abilityTimer))
                   && w.player.abilityActiveTimer == TickDown(old(w.player.abilityActiveTimer)))
    && (fired ==> w.player.abilityTimer == TickDownReal(w.player.abilityCooldown)
                  && w.player.abilityActiveTimer == TickDown(AbilityDuration(w.player.activeAbility)))
    && (fired && w.player.activeAbility == Nova ==>
          && w.shake == 30.0
          && w.enemies == NovaSweep(old(w.enemies), NovaDamage(w.player.weapons[0]), w.player.x, w.player.y, w.geo)
          && w.indicators == old(w.indicators) + NovaIndicators(old(w.enemies), NovaDamage(w.player.weapons[0])))
    && (!fired || w.player.activeAbility != Nova ==>
          w.shake == old(w.shake) && w.enemies == old(w.enemies) && w.indicators == old(w.indicators))
  }

  /** The ability key and the ability counters. */
  method AbilityKey(w: World, space: bool)
    requires w.Valid()
    modifies w.player`abilityTimer, w.player`abilityActiveTimer, w`shake, w`enemies, w`indicators
    ensures w.Valid()
    ensures w.kills == old(w.kills) && |w.enemies| == |old(w.enemies)|
    ensures AbilityKeyed(w, space)
  {
    if space {
      w.TriggerAbility();
    }
    w.TickAbilityTimers();
  }

  /**
   * The fighting: weapons fire, projectiles move and hit, and enemies act.
   * The player's health never rises, and afterwards every enemy without
   * health has been paid for, and only those.
   */
  method CombatPhase(w: World)
    requires w.Valid()
    modifies w`enemies, w`projectiles, w`loot, w`indicators, w`draws, w`shake, w`feedbackTimer, w`events
    modifies w`score, w`kills
    modifies w.player`weapons, w.player`facing, w.player`hp, w.player`state, w.player`frame, w.player`abilityActiveTimer
    ensures w.Valid()
    ensures w.kills >= old(w.kills)
    ensures forall j :: 0 <= j < |w.enemies| ==> (w.enemies[j].hp <= 0.0 <==> Rewarded(w.enemies[j]))
    ensures w.player.hp <= old(w.player.hp)
  {
    Weapons.UpdateWeapons(w);
    Projectiles.UpdateProjectiles(w, Projectiles.ViewOf(w.player.x, w.player.y, w.player.facing, w.width, w.height, w.geo));
    ghost var pss, ds := Enemies.UpdateEnemies(w);
  }

  /** The upkeep: loot, particles, indicators and hazards. */
  method UpkeepPhase(w: World)
    requires w.Valid()
    modifies w`loot, w`particles, w`indicators, w`events, w`shake
    modifies w.player`xp, w.player`xpToNextLevel, w.player`level, w.player`hp
    ensures w.Valid()
  {
    Pickups.UpdateLoot(w);
    Effects.UpdateParticles(w);
    Effects.UpdateIndicators(w);
    Effects.UpdateHazards(w);
  }

  /**
   * `updateGame`: one frame. The frame keeps the world's invariant, takes
   * one frame of time, never takes a kill back, and leaves every enemy
   * without health paid for, and only those.
   */
  method UpdateGame(w: World, dx: real, dy: real, space: bool)
    requires w.Valid()
    modifies w, w.player
    ensures w.Valid()
    ensures w.totalTime == old(w.totalTime) + 1
    ensures w.kills >= old(w.kills)
    ensures forall j :: 0 <= j < |w.enemies| ==> (w.enemies[j].hp <= 0.0 <==> Rewarded(w.enemies[j]))
  {
    DirectorPhase(w);
    PlayerPhase(w, dx, dy, space);
    CombatPhase(w);
    ghost var es := w.enemies;
    UpkeepPhase(w);
    assert w.enemies == es;
  }
}
