/**
 * The game canvas's frame driver: a frame runs only while the game is
 * playing; after the simulation step, marked entities and faded indicators
 * are dropped, the heads-up display is refreshed every 30 frames, and the
 * screen-shake and the damage-feedback timer decay. A change of map resets
 * the simulation and lays out the lava pools.
 */
module Canvas {
  import opened Types
  import opened Util
  import opened Combat
  import opened GameLoop
  import Frame

  // ---------------------------------------------------------------------------
  // Cleanup

  function KeepEnemy(e: Enemy): bool { !e.marked }
  function KeepProjectile(p: Projectile): bool { !p.marked }
  function KeepLoot(l: Loot): bool { !l.marked }
  function KeepParticle(pt: Particle): bool { !pt.marked }
  function KeepIndicator(d: DamageIndicator): bool { d.life > 0.0 }

  /** Whatever holds of every element still holds of every survivor of a filter. */
  lemma FilterKeeps<T(!new)>(s: seq<T>, keep: T -> bool, p: T -> bool)
    requires forall i :: 0 <= i < |s| ==> p(s[i])
    ensures forall i :: 0 <= i < |Filter(s, keep)| ==> p(Filter(s, keep)[i])
  {
    forall i | 0 <= i < |Filter(s, keep)|
      ensures p(Filter(s, keep)[i])
    {
      var x := Filter(s, keep)[i];
      assert x in Filter(s, keep);
      var j :| 0 <= j < |s| && s[j] == x;
    }
  }

  /**
   * The deferred deletion: enemies, projectiles, loot and particles keep
   * exactly their unmarked members, indicators exactly those with life left,
   * each list in its original order.
   */
  method Cleanup(w: World)
    requires w.Valid()
    modifies w`enemies, w`projectiles, w`loot, w`particles, w`indicators
    ensures w.Valid()
    ensures w.enemies == Filter(old(w.enemies), KeepEnemy)
    ensures w.projectiles == Filter(old(w.projectiles), KeepProjectile)
    ensures w.loot == Filter(old(w.loot), KeepLoot)
    ensures w.particles == Filter(old(w.particles), KeepParticle)
    ensures w.indicators == Filter(old(w.indicators), KeepIndicator)
  {
    FilterKeeps(w.enemies, KeepEnemy, EnemyOk);
    FilterKeeps(w.projectiles, KeepProjectile, (p: Projectile) => p.damage >= 0.0 && p.aoeRadius >= 0.0);
    FilterKeeps(w.loot, KeepLoot, (l: Loot) => l.value >= 0.0);
    w.PutEnemies(Filter(w.enemies, KeepEnemy));
    w.PutProjectiles(Filter(w.projectiles, KeepProjectile));
    w.PutLoot(Filter(w.loot, KeepLoot));
    w.particles := Filter(w.particles, KeepParticle);
    w.indicators := Filter(w.indicators, KeepIndicator);
  }

  /** A list whose members are all unmarked survives the cleanup whole, and one with no such member is emptied. */
  lemma {:induction false} CleanupExtremes(es: seq<Enemy>)
    ensures Filter(es, KeepEnemy) == es <==> forall i :: 0 <= i < |es| ==> !es[i].marked
    ensures (forall i :: 0 <= i < |es| ==> es[i].marked) ==> Filter(es, KeepEnemy) == []
  {
    FilterKeepsAll(es, KeepEnemy);
    FilterCount(es, KeepEnemy);
    if forall i :: 0 <= i < |es| ==> es[i].marked {
      NoneCounted(es);
    }
  }

  lemma {:induction false} NoneCounted(es: seq<Enemy>)
    requires forall i :: 0 <= i < |es| ==> es[i].marked
    ensures Count(es, KeepEnemy) == 0
  {
    if es != [] {
      NoneCounted(es[1..]);
    }
  }

  // ---------------------------------------------------------------------------
  // Decay

  /** The shake decays by 10% a frame and snaps to zero once below one half. */
  function ShakeDecay(s: real): (r: real)
    ensures s >= 0.0 ==> 0.0 <= r <= s && (r == 0.0 || r >= 0.5)
    ensures s > 0.0 ==> r < s && (r == 0.0 || r == 0.9 * s)
    ensures s <= 0.0 ==> r == s
  {
    if s > 0.0 then (if s * 0.9 < 0.5 then 0.0 else s * 0.9) else s
  }

  /** `n` frames of decay. */
  function ShakeDecayN(s: real, n: nat): real
  {
    if n == 0 then s else ShakeDecay(ShakeDecayN(s, n - 1))
  }

  /** A shake never grows while it decays, and never goes below zero. */
  lemma {:induction false} ShakeSubsides(s: real, n: nat)
    requires s >= 0.0
    ensures 0.0 <= ShakeDecayN(s, n) <= s
    ensures n >= 1 ==> ShakeDecayN(s, n) == 0.0 || ShakeDecayN(s, n) >= 0.5
  {
    if n > 0 {
      ShakeSubsides(s, n - 1);
    }
  }

  /** `n` frames of the feedback timer's countdown. */
  function TickDownN(t: int, n: nat): int
  {
    if n == 0 then t else TickDown(TickDownN(t, n - 1))
  }

  /** The damage-feedback timer runs out after as many frames as it holds, and stays at zero. */
  lemma {:induction false} FeedbackRunsOut(t: nat, n: nat)
    ensures TickDownN(t, n) == if n >= t then 0 else t - n
  {
    if n > 0 {
      FeedbackRunsOut(t, n - 1);
    }
  }

  /** The end of a frame: the shake and the damage-feedback timer decay. */
  method Decay(w: World)
    requires w.Valid()
    modifies w`shake, w`feedbackTimer
    ensures w.Valid()
    ensures w.shake == ShakeDecay(old(w.shake)) && w.feedbackTimer == TickDown(old(w.feedbackTimer))
  {
    if w.shake > 0.0 {
      w.shake := w.shake * 0.9;
      if w.shake < 0.5 {
        w.shake := 0.0;
      }
    }
    if w.feedbackTimer > 0 {
      w.feedbackTimer := w.feedbackTimer - 1;
    }
  }

  // ---------------------------------------------------------------------------
  // The heads-up display

  /** The decimal digits of `n`, without leading zeros. */
  function Digits(n: nat): (s: string)
    ensures |s| >= 1
    ensures forall i :: 0 <= i < |s| ==> '0' <= s[i] <= '9'
    decreases n
  {
    if n < 10 then [('0' as int + n) as char] else Digits(n / 10) + [('0' as int + n % 10) as char]
  }

  /** `m:ss`: the minutes, a colon, and the seconds padded to two digits. */
  function TimeLabel(minutes: nat, seconds: nat): string
  {
    Digits(minutes) + ":" + (if seconds < 10 then "0" else "") + Digits(seconds)
  }

  /** For seconds below 60 the label ends in exactly two digits after the colon: the tens and the units. */
  lemma TimeLabelShape(minutes: nat, seconds: nat)
    requires seconds < 60
    ensures var l := TimeLabel(minutes, seconds);
      && |l| == |Digits(minutes)| + 3
      && l[..|Digits(minutes)|] == Digits(minutes)
      && l[|Digits(minutes)|] == ':'
      && l[|l| - 2] == ('0' as int + seconds / 10) as char
      && l[|l| - 1] == ('0' as int + seconds % 10) as char
  {
    if seconds >= 10 {
      assert Digits(seconds) == Digits(seconds / 10) + [('0' as int + seconds % 10) as char];
    }
  }

  /** What the display shows: elapsed time, wave, score and the player's numbers. */
  datatype Hud = Hud(gameTime: string, wave: int, score: int, xp: real, xpToNextLevel: int,
                     ability: AbilityType, abilityTimer: real, abilityCooldown: real, hp: real, maxHp: real)

  /** Every 30th frame the display is refreshed; the wave is the minute plus one. */
  method Sync(w: World) returns (hud: Option<Hud>)
    requires w.totalTime >= 0
    ensures hud.Some? <==> w.totalTime % 30 == 0
    ensures hud.Some? ==>
      && hud.value.wave == w.totalTime / 3600 + 1
      && hud.value.gameTime == TimeLabel(w.totalTime / 3600, (w.totalTime % 3600) / 60)
      && (w.totalTime % 3600) / 60 < 60
      && hud.value.score == w.score && hud.value.hp == w.player.hp && hud.value.maxHp == w.player.maxHp
      && hud.value.xp == w.player.xp && hud.value.xpToNextLevel == w.player.xpToNextLevel
      && hud.value.ability == w.player.activeAbility && hud.value.abilityTimer == w.player.abilityTimer
      && hud.value.abilityCooldown == w.player.abilityCooldown
  {
    if w.totalTime % 30 == 0 {
      var clock := Frame.Clock(w.totalTime);
      var p := w.player;
      hud := Some(Hud(TimeLabel(clock.0, clock.1), clock.0 + 1, w.score, p.xp, p.xpToNextLevel,
                      p.activeAbility, p.abilityTimer, p.abilityCooldown, p.hp, p.maxHp));
    } else {
      hud := None;
    }
  }

  // ---------------------------------------------------------------------------
  // The frame driver

  /**
   * `animate`: outside play nothing in the simulation changes; in play the
   * frame is stepped, cleaned up, shown every 30 frames and decayed.
   */
  method Animate(w: World, state: GameState, dx: real, dy: real, space: bool) returns (hud: Option<Hud>)
    requires w.Valid()
    modifies w, w.player
    ensures w.Valid()
    ensures state != Playing ==> hud == None && unchanged(w) && unchanged(w.player)
    ensures state == Playing ==> w.totalTime == old(w.totalTime) + 1 && (hud.Some? <==> w.totalTime % 30 == 0)
  {
    if state != Playing {
      return None;
    }
    Frame.UpdateGame(w, dx, dy, space);
    Cleanup(w);
    hud := Sync(w);
    Decay(w);
  }

  // ---------------------------------------------------------------------------
  // Map change

  /** The id of lava pool `i`, for `i` below 10: `lava_` and the digit. */
  function LavaId(i: nat): string
    requires i < 10
  {
    "lava_" + [('0' as int + i) as char]
  }

  /** Lava pool `i` from three draws in [0, 1): its position on the view and a radius in [60, 100). */
  function LavaPool(i: nat, rx: real, ry: real, rr: real, viewW: real, viewH: real): (h: Hazard)
    requires i < 10
  {
    Hazard(LavaId(i), rx * viewW, ry * viewH, 60.0 + rr * 40.0, 0.2)
  }

  /** The first `n` lava pools drawn from the stream from position `d` on, three draws each. */
  function DrawnPools(random: nat -> real, d: nat, n: nat, viewW: real, viewH: real): (r: seq<Hazard>)
    requires n <= 10
    ensures |r| == n
  {
    if n == 0 then []
    else
      var k := d + 3 * (n - 1);
      DrawnPools(random, d, n - 1, viewW, viewH) + [LavaPool(n - 1, random(k), random(k + 1), random(k + 2), viewW, viewH)]
  }

  /**
   * The pools of a lava map: each burns enemies for 0.2, has a radius in
   * [60, 100), lies on the view, and has its own id.
   */
  lemma {:induction false} DrawnPoolsShape(random: nat -> real, d: nat, n: nat, viewW: real, viewH: real)
    requires n <= 10 && viewW >= 0.0 && viewH >= 0.0
    requires forall i: nat :: 0.0 <= random(i) < 1.0
    ensures var r := DrawnPools(random, d, n, viewW, viewH);
      && (forall i :: 0 <= i < n ==> r[i].damage == 0.2 && 60.0 <= r[i].radius < 100.0)
      && (forall i :: 0 <= i < n ==> 0.0 <= r[i].x <= viewW && 0.0 <= r[i].y <= viewH)
      && (forall i :: 0 <= i < n ==> r[i].id == LavaId(i))
  {
    if n > 0 {
      var pre := DrawnPools(random, d, n - 1, viewW, viewH);
      DrawnPoolsShape(random, d, n - 1, viewW, viewH);
      var k := d + 3 * (n - 1);
      var last := LavaPool(n - 1, random(k), random(k + 1), random(k + 2), viewW, viewH);
      var r := DrawnPools(random, d, n, viewW, viewH);
      assert r == pre + [last];
      assert random(k) * viewW <= 1.0 * viewW;
      assert random(k + 1) * viewH <= 1.0 * viewH;
      assert 0.0 <= random(k) * viewW && 0.0 <= random(k + 1) * viewH;
      assert 0.0 <= random(k + 2) * 40.0 < 40.0;
    }
  }

  /** The pools' ids are all different: `lava_0` to `lava_9` differ in their last character. */
  lemma LavaIdsDistinct(i: nat, j: nat)
    requires i < j < 10
    ensures LavaId(i) != LavaId(j)
  {
    assert LavaId(i)[5] != LavaId(j)[5];
  }

  /** The hazards of map `m`: five pools on a lava map, three draws each; none otherwise. */
  method LayPools(w: World, m: GameMap, viewW: real, viewH: real) returns (pools: seq<Hazard>)
    requires w.StreamOk() && viewW >= 0.0 && viewH >= 0.0
    modifies w`draws
    ensures pools == (if m.hazardType == LavaPools then DrawnPools(w.random, old(w.draws), 5, viewW, viewH) else [])
    ensures w.draws == old(w.draws) + (if m.hazardType == LavaPools then 15 else 0)
    ensures PoolsOk(pools)
  {
    pools := [];
    if m.hazardType == LavaPools {
      var i := 0;
      while i < 5
        invariant 0 <= i <= 5
        invariant w.draws == old(w.draws) + 3 * i
        invariant pools == DrawnPools(w.random, old(w.draws), i, viewW, viewH)
      {
        var rx := w.Random();
        var ry := w.Random();
        var rr := w.Random();
        pools := pools + [LavaPool(i, rx, ry, rr, viewW, viewH)];
        i := i + 1;
      }
      DrawnPoolsShape(w.random, old(w.draws), 5, viewW, viewH);
    }
  }

  /**
   * The map-change effect: the new map's lava pools (five, on a lava map;
   * none otherwise), the time state back to its start, every entity list
   * and the score and kills emptied.
   */
  method ResetForMap(w: World, m: GameMap, viewW: real, viewH: real)
    requires w.Valid() && viewW >= 0.0 && viewH >= 0.0
    modifies w`draws, w`hazards, w`enemies, w`projectiles, w`loot, w`particles, w`indicators
    modifies w`totalTime, w`spawnTimer, w`spawnRate, w`enemySpeedMult, w`difficultyMult, w`currentMap, w`score, w`kills
    ensures w.Valid()
    ensures w.currentMap == m
    ensures w.hazards == (if m.hazardType == LavaPools then DrawnPools(w.random, old(w.draws), 5, viewW, viewH) else [])
    ensures w.draws == old(w.draws) + (if m.hazardType == LavaPools then 15 else 0)
    ensures w.totalTime == 0 && w.spawnTimer == 0 && w.spawnRate == 60 && w.enemySpeedMult == 1.0 && w.difficultyMult == 1.0
    ensures w.enemies == [] && w.projectiles == [] && w.loot == [] && w.particles == [] && w.indicators == []
    ensures w.score == 0 && w.kills == 0
  {
    var pools := LayPools(w, m, viewW, viewH);
    w.Reset(m, pools);
  }
}
