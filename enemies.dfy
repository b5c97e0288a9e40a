/**
 * `updateEnemies`: every enemy takes its turn in list order. An animated
 * enemy (orc, skeleton, wizard) first advances its animation: a dying one
 * collects its rewards if nobody has yet and does nothing else; an attacking
 * one strikes the player on its middle frame (the wizard also throws a
 * fireball). Then it moves (a rusher flies straight, the others drift, slow
 * down and walk at the player, pushed apart by the enemies they overlap),
 * electric walls pull it back, lava pools push and burn it, the player's
 * projectiles hit it, a rusher or a boss hurts the player on contact, and a
 * killed enemy pays its rewards once.
 */
module Enemies {
  import opened Types
  import opened Util
  import opened Sprites
  import opened Combat
  import opened GameLoop

  // ---------------------------------------------------------------------------
  // Movement

  /** A rusher flies on its spawn velocity and is dropped once it is 200 px beyond the canvas. */
  function Fly(e: Enemy, w: real, h: real): Enemy
  {
    var x, y := e.x + e.vx, e.y + e.vy;
    e.(x := x, y := y, marked := e.marked || x < -200.0 || x > w + 200.0 || y < -200.0 || y > h + 200.0)
  }

  /** Any other enemy drifts on its velocity, which friction then cuts to 85%. */
  function Drift(e: Enemy): Enemy
  {
    e.(x := e.x + e.vx, y := e.y + e.vy, vx := e.vx * 0.85, vy := e.vy * 0.85)
  }

  /** The states in which an enemy walks toward the player. */
  predicate CanMove(s: AnimState) { s != Death && s != Hurt && s != Attack }

  /** `Math.hypot(vx, vy) < 2`: the knockback has nearly worn off. */
  predicate Settled(e: Enemy) { e.vx * e.vx + e.vy * e.vy < 4.0 }

  /** Every enemy pushes the others apart, except a dead one in its death animation. */
  predicate Blocks(o: Enemy) { !(o.hp <= 0.0 && o.state == Death) }

  /** `a / b`, where two enemies on the very same spot push nothing. */
  function Ratio(a: real, b: real): real { if b == 0.0 then 0.0 else a / b }

  /** The push away from `o` on `e` when their bodies overlap: the unit vector from `o` to `e`. */
  function PushTerm(e: Enemy, o: Enemy, geo: Geometry): (real, real)
  {
    if Blocks(o) && Within(e.x, e.y, o.x, o.y, e.radius + o.radius) then
      var dist := geo.sqrt(DistSq(e.x, e.y, o.x, o.y));
      (Ratio(e.x - o.x, dist), Ratio(e.y - o.y, dist))
    else (0.0, 0.0)
  }

  /** The push on `e` from the first `j` enemies of `es`, skipping its own slot `self`. */
  function PushSum(es: seq<Enemy>, self: nat, e: Enemy, geo: Geometry, j: nat): (real, real)
    requires j <= |es|
  {
    if j == 0 then (0.0, 0.0)
    else
      var s := PushSum(es, self, e, geo, j - 1);
      var t := if j - 1 == self then (0.0, 0.0) else PushTerm(e, es[j - 1], geo);
      (s.0 + t.0, s.1 + t.1)
  }

  /** Nothing pushes an enemy that overlaps no other blocking enemy. */
  lemma {:induction false} NoOverlapNoPush(es: seq<Enemy>, self: nat, e: Enemy, geo: Geometry, j: nat)
    requires j <= |es|
    requires forall k :: 0 <= k < j && k != self && Blocks(es[k]) ==> !Within(e.x, e.y, es[k].x, es[k].y, e.radius + es[k].radius)
    ensures PushSum(es, self, e, geo, j) == (0.0, 0.0)
  {
    if j > 0 {
      NoOverlapNoPush(es, self, e, geo, j - 1);
    }
  }

  /** The inner `enemies.forEach`: the separation push on `e` from every other enemy. */
  method SeparationPush(es: seq<Enemy>, self: nat, e: Enemy, geo: Geometry) returns (push: (real, real))
    ensures push == PushSum(es, self, e, geo, |es|)
  {
    var px, py := 0.0, 0.0;
    var j := 0;
    while j < |es|
      invariant j <= |es| && (px, py) == PushSum(es, self, e, geo, j)
    {
      if j != self {
        var t := PushTerm(e, es[j], geo);
        px, py := px + t.0, py + t.1;
      }
      j := j + 1;
    }
    push := (px, py);
  }

  /** A settled enemy that is free to move walks at its speed toward the player, plus a tenth of the push. */
  function Chase(e: Enemy, px: real, py: real, push: (real, real), geo: Geometry): Enemy
  {
    if Settled(e) && CanMove(e.state) then
      var angle := geo.atan2(py - e.y, px - e.x);
      e.(x := e.x + (geo.cos(angle) * e.speed + push.0 * 0.1), y := e.y + (geo.sin(angle) * e.speed + push.1 * 0.1))
    else e
  }

  /** An enemy touching the 20 px border of the canvas. */
  predicate AtWall(e: Enemy, w: real, h: real)
  {
    e.x <= 20.0 || e.x >= w - 20.0 || e.y <= 20.0 || e.y >= h - 20.0
  }

  /** On the electric-walls map an enemy at the border is pulled 5% of the way back to the centre. */
  function WallPull(e: Enemy, hazard: HazardType, w: real, h: real): Enemy
  {
    if hazard == ElectricWalls && AtWall(e, w, h) then
      e.(x := e.x + (w / 2.0 - e.x) * 0.05, y := e.y + (h / 2.0 - e.y) * 0.05)
    else e
  }

  /** The pull keeps everything but the position, and takes 5% off the distance to the centre on each axis. */
  lemma WallPullTowardCentre(e: Enemy, hazard: HazardType, w: real, h: real)
    ensures var r := WallPull(e, hazard, w, h);
      && r == e.(x := r.x, y := r.y)
      && (hazard == ElectricWalls && AtWall(e, w, h) ==>
            r.x - w / 2.0 == 0.95 * (e.x - w / 2.0) && r.y - h / 2.0 == 0.95 * (e.y - h / 2.0))
      && (hazard != ElectricWalls || !AtWall(e, w, h) ==> r == e)
  {
  }

  /**
   * Where an enemy's movement takes it, before the walls: a rusher flies;
   * any other drifts and, when it may, walks with the push of `es`, the
   * enemy list as this turn sees it, in which it holds slot `self`.
   */
  function Moved(e: Enemy, es: seq<Enemy>, self: nat, px: real, py: real, geo: Geometry, w: real, h: real): (r: Enemy)
    ensures r == e.(x := r.x, y := r.y, vx := r.vx, vy := r.vy, marked := r.marked)
    ensures r.marked ==> e.marked || e.kind == Rusher
    ensures e.kind != Rusher && !CanMove(e.state) ==> r == Drift(e)
    ensures e.kind == Rusher ==> r.vx == e.vx && r.vy == e.vy
  {
    if e.kind == Rusher then Fly(e, w, h)
    else
      var d := Drift(e);
      Chase(d, px, py, PushSum(es, self, d, geo, |es|), geo)
  }

  // ---------------------------------------------------------------------------
  // Lava

  predicate InLava(e: Enemy, hz: Hazard) { Within(e.x, e.y, hz.x, hz.y, hz.radius) }

  /** The burn as written: the hit points drop, whatever the animation state. */
  function LavaBurnAsWritten(e: Enemy, dmg: real): Enemy
  {
    e.(hp := e.hp - dmg)
  }

  /** The burn as intended: an animated enemy that it kills enters its death animation, as a projectile kill does. */
  function LavaBurn(e: Enemy, dmg: real): (r: Enemy)
    ensures r.hp == e.hp - dmg
    ensures r.(state := e.state, frame := e.frame) == LavaBurnAsWritten(e, dmg)
    ensures EnemyOk(e) && dmg >= 0.0 ==> EnemyOk(r)
  {
    var r := LavaBurnAsWritten(e, dmg);
    if IsAnimated(e.kind) && r.hp <= 0.0 && e.state != Death then r.(state := Death, frame := 0) else r
  }

  /** As written, lava can leave a walking orc with no hit points: it is neither alive nor dying. */
  lemma LavaLeavesUndead()
    ensures var e := Enemy(Basic, 0.0, 0.0, 0.0, 0.0, 16.0, 0.1, 30.0, 1.0, 10.0, 1.0, 0.0, Walk, 0, 0, false, false);
      && EnemyOk(e)
      && !EnemyOk(LavaBurnAsWritten(e, 0.2))
      && LavaBurnAsWritten(e, 0.2).hp <= 0.0 && LavaBurnAsWritten(e, 0.2).state == Walk
      && LavaBurn(e, 0.2).state == Death && EnemyOk(LavaBurn(e, 0.2))
  {
  }

  /** A pool pushes the enemy half a step away from the player, then burns it. */
  function LavaTouch(e: Enemy, hz: Hazard, px: real, py: real, geo: Geometry): Enemy
  {
    var angle := geo.atan2(py - e.y, px - e.x);
    LavaBurn(e.(x := e.x - geo.cos(angle) * e.speed * 0.5, y := e.y - geo.sin(angle) * e.speed * 0.5), hz.damage)
  }

  /** The enemy after a walk over lava pools, the damage numbers shown and the draws used. */
  datatype LavaResult = LavaResult(e: Enemy, inds: seq<DamageIndicator>, used: nat)

  /**
   * `hazards.forEach` on one enemy, after the first `j` pools: each pool the
   * enemy is in pushes and burns it and draws once, a draw below 0.1 showing
   * the pool's damage.
   */
  function LavaAfter(e: Enemy, hz: seq<Hazard>, j: nat, px: real, py: real, geo: Geometry, random: nat -> real, d: nat)
    : (r: LavaResult)
    requires j <= |hz|
    ensures r.e == e.(x := r.e.x, y := r.e.y, hp := r.e.hp, state := r.e.state, frame := r.e.frame)
    ensures r.used <= j && |r.inds| <= r.used
    ensures PoolsOk(hz) ==> r.e.hp <= e.hp
    ensures PoolsOk(hz) && EnemyOk(e) ==> EnemyOk(r.e)
    decreases j
  {
    if j == 0 then LavaResult(e, [], 0)
    else
      var r := LavaAfter(e, hz, j - 1, px, py, geo, random, d);
      var pool := hz[j - 1];
      if InLava(r.e, pool) then
        var shown := if random(d + r.used) < 0.1 then [DamageIndicator(Ceil(pool.damage), 1.0, false, false)] else [];
        LavaResult(LavaTouch(r.e, pool, px, py, geo), r.inds + shown, r.used + 1)
      else r
  }

  /** The loop over the pools for one enemy. */
  method LavaPass(e: Enemy, hz: seq<Hazard>, px: real, py: real, geo: Geometry, random: nat -> real, d: nat)
    returns (r: LavaResult)
    ensures r == LavaAfter(e, hz, |hz|, px, py, geo, random, d)
  {
    r := LavaResult(e, [], 0);
    var j := 0;
    while j < |hz|
      invariant j <= |hz| && r == LavaAfter(e, hz, j, px, py, geo, random, d)
    {
      var pool := hz[j];
      if InLava(r.e, pool) {
        var shown := if random(d + r.used) < 0.1 then [DamageIndicator(Ceil(pool.damage), 1.0, false, false)] else [];
        r := LavaResult(LavaTouch(r.e, pool, px, py, geo), r.inds + shown, r.used + 1);
      }
      j := j + 1;
    }
  }

  // ---------------------------------------------------------------------------
  // Projectile hits

  /** The projectiles this stage lets hit enemies: the player's unspent shots, orbitals and boomerangs. */
  predicate Strikes(q: Projectile)
  {
    !q.marked && q.owner == ByPlayer && (q.behavior == StraightShot || q.behavior == OrbitShot || q.behavior == BoomerangShot)
  }

  /** Which projectiles reach a body of radius `r` at (x, y). */
  function Reach(x: real, y: real, r: real): Projectile -> bool
  {
    q => Strikes(q) && Within(x, y, q.x, q.y, r + q.radius)
  }

  function ReachOf(e: Enemy): Projectile -> bool { Reach(e.x, e.y, e.radius) }

  /** A hit pushes back every enemy but a rusher, by the projectile's velocity scaled by what it does not resist. */
  function Knockback(e: Enemy, q: Projectile): Enemy
  {
    if e.kind != Rusher && e.knockbackResist < 1.0 then
      var k := (1.0 - e.knockbackResist) * 0.3 * 3.0;
      e.(vx := e.vx + q.vx * k, vy := e.vy + q.vy * k)
    else e
  }

  /** A projectile hit: its damage (an ongoing hurt animation continues), then the knockback. */
  function HitBy(e: Enemy, q: Projectile): Enemy
  {
    Knockback(DamageEnemy(e, q.damage, false), q)
  }

  /** A hit uses up one pierce; the projectile is spent when none is left. One without pierce is unaffected. */
  function Pierced(q: Projectile): (r: Projectile)
    ensures q.pierce > 0 ==> r == q.(pierce := q.pierce - 1, marked := q.pierce - 1 <= 0)
    ensures q.pierce <= 0 ==> r == q
  {
    if q.pierce > 0 then q.(pierce := q.pierce - 1, marked := q.pierce - 1 <= 0) else q
  }

  function HitIndicator(q: Projectile): DamageIndicator
  {
    DamageIndicator(Ceil(q.damage), 1.0, false, q.isMaxRank)
  }

  /** The total damage of the first `j` projectiles that `reach` accepts. */
  function HitDamage(ps: seq<Projectile>, reach: Projectile -> bool, j: nat): (t: real)
    requires j <= |ps|
    ensures ProjectilesOk(ps) ==> t >= 0.0
  {
    if j == 0 then 0.0 else HitDamage(ps, reach, j - 1) + (if reach(ps[j - 1]) then ps[j - 1].damage else 0.0)
  }

  /**
   * The enemy after the first `j` projectiles had their chance: which ones
   * hit is fixed by its position and size, which hits never change; its hit
   * points drop by exactly their total damage.
   */
  function AfterHits(e: Enemy, ps: seq<Projectile>, j: nat): (r: Enemy)
    requires j <= |ps|
    ensures r == e.(hp := r.hp, state := r.state, frame := r.frame, vx := r.vx, vy := r.vy)
    ensures r.hp == e.hp - HitDamage(ps, ReachOf(e), j)
    ensures EnemyOk(e) && ProjectilesOk(ps) ==> EnemyOk(r)
    decreases j
  {
    if j == 0 then e
    else
      var r := AfterHits(e, ps, j - 1);
      if ReachOf(e)(ps[j - 1]) then HitBy(r, ps[j - 1]) else r
  }

  /** One damage number per hit, in list order. */
  function HitIndicators(ps: seq<Projectile>, reach: Projectile -> bool, j: nat): (r: seq<DamageIndicator>)
    requires j <= |ps|
    ensures |r| == Count(ps[..j], reach)
    ensures forall k :: 0 <= k < |r| ==> !r[k].isPlayer
  {
    if j == 0 then []
    else
      assert ps[..j] == ps[..j - 1] + [ps[j - 1]];
      CountAppend(ps[..j - 1], [ps[j - 1]], reach);
      HitIndicators(ps, reach, j - 1) + (if reach(ps[j - 1]) then [HitIndicator(ps[j - 1])] else [])
  }

  /** The projectiles after the enemy's turn: each one that hit used up one pierce, the others are untouched. */
  function PiercedAll(ps: seq<Projectile>, reach: Projectile -> bool): (r: seq<Projectile>)
    ensures |r| == |ps|
    ensures forall k :: 0 <= k < |ps| ==> r[k] == if reach(ps[k]) then Pierced(ps[k]) else ps[k]
    ensures ProjectilesOk(ps) ==> ProjectilesOk(r)
  {
    seq(|ps|, k requires 0 <= k < |ps| => if reach(ps[k]) then Pierced(ps[k]) else ps[k])
  }

  /** The result of the projectiles' pass over one enemy. */
  datatype HitResult = HitResult(e: Enemy, ps: seq<Projectile>, inds: seq<DamageIndicator>)

  /** What the projectiles' pass leaves after its first `j` projectiles. */
  predicate HitSoFar(e: Enemy, ps: seq<Projectile>, j: nat, r: HitResult)
  {
    && j <= |ps| == |r.ps|
    && r.e == AfterHits(e, ps, j)
    && r.inds == HitIndicators(ps, ReachOf(e), j)
    && (forall k :: 0 <= k < j ==> r.ps[k] == if ReachOf(e)(ps[k]) then Pierced(ps[k]) else ps[k])
    && (forall k :: j <= k < |ps| ==> r.ps[k] == ps[k])
  }

  lemma HitSoFarStep(e: Enemy, ps: seq<Projectile>, j: nat, r: HitResult, r': HitResult)
    requires HitSoFar(e, ps, j, r) && j < |ps|
    requires r' == if ReachOf(e)(ps[j]) then HitResult(HitBy(r.e, ps[j]), r.ps[j := Pierced(ps[j])], r.inds + [HitIndicator(ps[j])])
                   else r
    ensures HitSoFar(e, ps, j + 1, r')
  {
  }

  /** The `projectiles.forEach` for one enemy. */
  method HitPass(e: Enemy, ps: seq<Projectile>) returns (r: HitResult)
    ensures r.e == AfterHits(e, ps, |ps|)
    ensures r.inds == HitIndicators(ps, ReachOf(e), |ps|)
    ensures r.ps == PiercedAll(ps, ReachOf(e))
    ensures ProjectilesOk(ps) ==> ProjectilesOk(r.ps) && (EnemyOk(e) ==> EnemyOk(r.e))
  {
    r := HitResult(e, ps, []);
    var j := 0;
    while j < |ps|
      invariant HitSoFar(e, ps, j, r)
    {
      ghost var r0 := r;
      var q := ps[j];
      if ReachOf(e)(q) {
        r := HitResult(HitBy(r.e, q), r.ps[j := Pierced(q)], r.inds + [HitIndicator(q)]);
      }
      HitSoFarStep(e, ps, j, r0, r);
      j := j + 1;
    }
  }

  // ---------------------------------------------------------------------------
  // The player under attack

  /** The wizard's fireball: an enemy shot from its position toward the player at speed 5. */
  function Fireball(e: Enemy, px: real, py: real, geo: Geometry): Projectile
  {
    var angle := geo.atan2(py - e.y, px - e.x);
    Projectile("enemy_fire_", ByEnemy, e.x, e.y, geo.cos(angle) * 5.0, geo.sin(angle) * 5.0, 10.0, e.damage, 120, 1, StraightShot, 0.0, false, false)
  }

  /** How close the player must be for a landing attack to hurt: the wizard reaches 100 px, the others 35 px past touching. */
  function AttackRange(k: EnemyKind, playerRadius: real, enemyRadius: real): real
  {
    if k == Goliath then 100.0 else playerRadius + enemyRadius + 35.0
  }

  /** How close the player must be for a walking enemy to start its attack. */
  function AttackDistance(k: EnemyKind): real
  {
    if k == Goliath then 200.0 else 55.0
  }

  /** Contact damage is blocked while the hit feedback runs and while a dash is active. */
  predicate Exposed(feedbackTimer: int, a: AbilityType, activeTimer: int)
  {
    feedbackTimer <= 0 && !DashActive(a, activeTimer)
  }

  // ---------------------------------------------------------------------------
  // Rewards

  /** The screen shake of a kill: a boss shakes it hard. */
  function KillShake(k: EnemyKind): real
  {
    if k == Boss then 50.0 else 2.0
  }

  /**
   * The books of one enemy's turn: its reward flag never clears, the loot
   * list only grows, and the kills and the loot each grow by one exactly
   * when the flag was set during the turn.
   */
  predicate Books(e: Enemy, e': Enemy, kills: int, kills': int, loot: seq<Loot>, loot': seq<Loot>)
  {
    && (Rewarded(e) ==> Rewarded(e'))
    && |loot| <= |loot'| && loot'[..|loot|] == loot
    && kills' - kills == |loot'| - |loot| == (if !Rewarded(e) && Rewarded(e') then 1 else 0)
  }

  /**
   * A kill's reward, paid once: enemy `e` goes back into slot `i` with its
   * flag set, score +10, kills +1, the screen shakes, and the enemy drops
   * its loot at its position, health or experience by one draw.
   */
  method Reward(w: World, i: nat, e: Enemy)
    requires w.Valid() && i < |w.enemies| && EnemyOk(e)
    requires e.hp <= 0.0 && !e.rewardsProcessed
    modifies w`enemies, w`score, w`kills, w`shake, w`loot, w`draws
    ensures w.Valid()
    ensures w.enemies == old(w.enemies)[i := e.(rewardsProcessed := true)]
    ensures w.score == old(w.score) + 10 && w.kills == old(w.kills) + 1
    ensures w.shake == KillShake(e.kind)
    ensures w.loot == old(w.loot) + [DeathLoot(e, w.player.xpMultiplier, w.random(old(w.draws)))]
    ensures w.draws == old(w.draws) + 1
  {
    w.PutEnemy(i, e.(rewardsProcessed := true));
    w.CountKill(KillShake(e.kind));
    var roll := w.Random();
    w.DropLoot(DeathLoot(e, w.player.xpMultiplier, roll));
  }

  // ---------------------------------------------------------------------------
  // One enemy's turn, as a value

  /** What an enemy's turn reads of the world and never changes: the player's position, the canvas, the map and the draws. */
  datatype Arena = Arena(px: real, py: real, geo: Geometry, width: real, height: real, hazardType: HazardType,
                         hazards: seq<Hazard>, random: nat -> real)

  function ArenaOf(w: World): Arena
    reads w`width, w`height, w`currentMap, w`hazards, w.player`x, w.player`y
  {
    Arena(w.player.x, w.player.y, w.geo, w.width, w.height, w.currentMap.hazardType, w.hazards, w.random)
  }

  /** The fireball a wizard throws when its attack lands this turn. */
  function Thrown(e: Enemy, ar: Arena): seq<Projectile>
  {
    if e.kind == Goliath && e.state != Death && AttackLands(e.kind, Anim(e.state, e.frame, e.frameTimer))
    then [Fireball(e, ar.px, ar.py, ar.geo)] else []
  }

  /** A dying enemy's turn: its death animation advances, it is marked once finished, and it is paid for. */
  function Dying(e: Enemy): Enemy
  {
    var s := EnemyAnimNext(e.kind, Anim(Death, e.frame, e.frameTimer), false);
    e.(frame := s.anim.frame, frameTimer := s.anim.timer, rewardsProcessed := true, marked := e.marked || s.finished)
  }

  /** The end of a living enemy's turn: a killed one is paid for, and a killed rusher or boss is marked at once. */
  function Settle(e: Enemy): Enemy
  {
    if e.hp <= 0.0 then e.(rewardsProcessed := true, marked := e.marked || !IsAnimated(e.kind)) else e
  }

  /** An enemy after its turn, the projectiles after it, and the number of draws taken. */
  datatype Turned = Turned(e: Enemy, ps: seq<Projectile>, d: nat)

  /**
   * The turn of the enemy in slot `i` of `es`, meeting projectiles `ps`
   * with `d` draws taken so far: a dying enemy only animates and is paid
   * for (one draw for its loot when it had not been); any other lives its
   * turn.
   */
  function TurnOf(es: seq<Enemy>, i: nat, ar: Arena, ps: seq<Projectile>, d: nat): Turned
    requires i < |es|
  {
    if es[i].state == Death then Turned(Dying(es[i]), ps, d + if Rewarded(es[i]) then 0 else 1)
    else LivedTurn(es, i, ar, ps, d)
  }

  /**
   * A living enemy's turn: it animates (a wizard whose attack lands adds its
   * fireball), moves, meets the lava (its draws) and then the projectiles,
   * which lose their pierce on it; a killed one is settled, with one draw
   * for its loot when it had not been paid for.
   */
  function LivedTurn(es: seq<Enemy>, i: nat, ar: Arena, ps: seq<Projectile>, d: nat): Turned
    requires i < |es|
  {
    var e := es[i];
    var a := if IsAnimated(e.kind) then Animated(e, ar.px, ar.py) else e;
    var m := WallPull(Moved(a, es, i, ar.px, ar.py, ar.geo, ar.width, ar.height), ar.hazardType, ar.width, ar.height);
    var lava := LavaAfter(m, ar.hazards, |ar.hazards|, ar.px, ar.py, ar.geo, ar.random, d);
    var ps1 := ps + Thrown(e, ar);
    var r := AfterHits(lava.e, ps1, |ps1|);
    Turned(Settle(r), PiercedAll(ps1, ReachOf(lava.e)), d + lava.used + if r.hp <= 0.0 && !Rewarded(r) then 1 else 0)
  }

  // ---------------------------------------------------------------------------
  // One enemy's turn, stage by stage

  /**
   * A dying enemy: it collects its reward if nobody has yet, plays its
   * death animation, is marked for removal once it has finished, and does
   * nothing else this frame.
   */
  method DyingTurn(w: World, i: nat)
    requires w.Valid() && i < |w.enemies| && w.enemies[i].state == Death
    modifies w`enemies, w`score, w`kills, w`shake, w`loot, w`draws
    ensures w.Valid()
    ensures w.enemies == old(w.enemies)[i := Dying(old(w.enemies[i]))]
    ensures w.draws == old(w.draws) + if Rewarded(old(w.enemies[i])) then 0 else 1
    ensures Books(old(w.enemies[i]), w.enemies[i], old(w.kills), w.kills, old(w.loot), w.loot)
  {
    var e := w.enemies[i];
    assert EnemyOk(e);
    var a := Anim(Death, e.frame, e.frameTimer);
    var s := EnemyAnimNext(e.kind, a, false);
    EnemyAnimTransitions(e.kind, a, false);
    var d := e.(frame := s.anim.frame, frameTimer := s.anim.timer, marked := e.marked || s.finished);
    if !e.rewardsProcessed {
      Reward(w, i, d);
    } else {
      w.PutEnemy(i, d);
    }
  }

  /**
   * A blow with damage `dmg` that lands when `hit` holds: `StrikePlayer`'s
   * result (a shield absorbs it; otherwise armoured damage, the hurt
   * animation and a game-over report when fatal); without `hit` nothing
   * changes.
   */
  method StrikeIf(w: World, hit: bool, dmg: real)
    requires w.Valid()
    modifies w`shake, w`feedbackTimer, w`indicators, w`events
    modifies w.player`hp, w.player`state, w.player`frame, w.player`abilityActiveTimer
    ensures w.Valid()
    ensures hit ==> w.feedbackTimer == 30
    ensures hit && ShieldActive(w.player.activeAbility, old(w.player.abilityActiveTimer)) ==>
      w.player.hp == old(w.player.hp) && w.player.abilityActiveTimer == 0
    ensures hit && !ShieldActive(w.player.activeAbility, old(w.player.abilityActiveTimer)) ==>
      && w.player.hp == old(w.player.hp) - ArmorDamage(dmg, w.player.armor)
      && w.player.state == Hurt && w.player.frame == 0
      && w.events == old(w.events) + GameOverIf(w.player.hp, w.score, w.kills)
    ensures !hit ==>
      && w.feedbackTimer == old(w.feedbackTimer) && w.player.hp == old(w.player.hp) && w.shake == old(w.shake)
      && w.player.abilityActiveTimer == old(w.player.abilityActiveTimer) && w.indicators == old(w.indicators)
      && w.events == old(w.events)
    ensures w.player.hp <= old(w.player.hp)
  {
    if hit {
      w.StrikePlayer(dmg);
    }
  }

  /** The wizard's blow lands with a fireball: an enemy shot at the player. */
  method ThrowFireball(w: World, e: Enemy)
    requires w.Valid() && EnemyOk(e)
    modifies w`projectiles
    ensures w.Valid()
    ensures w.projectiles == old(w.projectiles) + [Fireball(e, w.player.x, w.player.y, w.geo)]
  {
    var f := Fireball(e, w.player.x, w.player.y, w.geo);
    ProjectilesAppend(w.projectiles, [f]);
    w.PutProjectiles(w.projectiles + [f]);
  }

  /**
   * The attack of an animated enemy `e` lands: the wizard throws a fireball,
   * and the blow hurts a living player in range unless the hit feedback or a
   * dash protects them.
   */
  method Strike(w: World, e: Enemy)
    requires w.Valid() && EnemyOk(e)
    modifies w`projectiles, w`shake, w`feedbackTimer, w`indicators, w`events
    modifies w.player`hp, w.player`state, w.player`frame, w.player`abilityActiveTimer
    ensures w.Valid()
    ensures w.projectiles == old(w.projectiles) + if e.kind == Goliath then [Fireball(e, w.player.x, w.player.y, w.geo)] else []
    ensures var hit := && Within(w.player.x, w.player.y, e.x, e.y, AttackRange(e.kind, w.player.radius, e.radius))
                       && old(w.player.hp) > 0.0 && Exposed(old(w.feedbackTimer), w.player.activeAbility, old(w.player.abilityActiveTimer));
      && (hit ==> w.feedbackTimer == 30)
      && (hit && ShieldActive(w.player.activeAbility, old(w.player.abilityActiveTimer)) ==>
            w.player.hp == old(w.player.hp) && w.player.abilityActiveTimer == 0)
      && (hit && !ShieldActive(w.player.activeAbility, old(w.player.abilityActiveTimer)) ==>
            && w.player.hp == old(w.player.hp) - ArmorDamage(e.damage, w.player.armor)
            && w.player.state == Hurt && w.player.frame == 0
            && w.events == old(w.events) + GameOverIf(w.player.hp, w.score, w.kills))
      && (!hit ==> w.feedbackTimer == old(w.feedbackTimer) && w.player.hp == old(w.player.hp) && w.shake == old(w.shake)
                   && w.player.abilityActiveTimer == old(w.player.abilityActiveTimer) && w.indicators == old(w.indicators)
                   && w.events == old(w.events))
    ensures w.player.hp <= old(w.player.hp)
  {
    var p := w.player;
    if e.kind == Goliath {
      ThrowFireball(w, e);
    }
    StrikeIf(w, Within(p.x, p.y, e.x, e.y, AttackRange(e.kind, p.radius, e.radius)) && p.hp > 0.0
                && Exposed(w.feedbackTimer, p.activeAbility, p.abilityActiveTimer), e.damage);
  }

  /** The enemy's animation advanced one frame, a walking enemy turning to attack when the player is near. */
  function Animated(e: Enemy, px: real, py: real): Enemy
  {
    var near := Within(px, py, e.x, e.y, AttackDistance(e.kind));
    var s := EnemyAnimNext(e.kind, Anim(e.state, e.frame, e.frameTimer), near).anim;
    e.(state := s.state, frame := s.frame, frameTimer := s.timer)
  }

  /** Animating keeps a well-formed enemy well-formed, and alive or dying as it was. */
  lemma AnimatedOk(e: Enemy, px: real, py: real)
    requires IsAnimated(e.kind) && EnemyOk(e)
    ensures EnemyOk(Animated(e, px, py)) && (Animated(e, px, py).state == Death <==> e.state == Death)
  {
    EnemyAnimTransitions(e.kind, Anim(e.state, e.frame, e.frameTimer), Within(px, py, e.x, e.y, AttackDistance(e.kind)));
  }

  /** A living animated enemy's animation: on the middle frame of its attack the blow lands (see `Strike`); then it animates. */
  method AnimateLiving(w: World, e: Enemy) returns (r: Enemy)
    requires w.Valid() && EnemyOk(e) && IsAnimated(e.kind) && e.state != Death
    modifies w`projectiles, w`shake, w`feedbackTimer, w`indicators, w`events
    modifies w.player`hp, w.player`state, w.player`frame, w.player`abilityActiveTimer
    ensures w.Valid() && EnemyOk(r)
    ensures r == Animated(e, w.player.x, w.player.y)
    ensures AttackLands(e.kind, Anim(e.state, e.frame, e.frameTimer)) ==>
      w.projectiles == old(w.projectiles) + if e.kind == Goliath then [Fireball(e, w.player.x, w.player.y, w.geo)] else []
    ensures !AttackLands(e.kind, Anim(e.state, e.frame, e.frameTimer)) ==>
      && w.projectiles == old(w.projectiles) && w.feedbackTimer == old(w.feedbackTimer) && w.player.hp == old(w.player.hp)
      && w.player.abilityActiveTimer == old(w.player.abilityActiveTimer)
    ensures w.player.hp <= old(w.player.hp)
  {
    if AttackLands(e.kind, Anim(e.state, e.frame, e.frameTimer)) {
      Strike(w, e);
    }
    r := Animated(e, w.player.x, w.player.y);
    AnimatedOk(e, w.player.x, w.player.y);
  }

  /** Where the enemy in slot `i` moves this turn (see `Moved`), after the walls pulled it back. */
  method MoveOf(w: World, i: nat, e: Enemy) returns (m: Enemy)
    ensures m == WallPull(Moved(e, w.enemies, i, w.player.x, w.player.y, w.geo, w.width, w.height),
                          w.currentMap.hazardType, w.width, w.height)
  {
    if e.kind == Rusher {
      m := Fly(e, w.width, w.height);
    } else {
      var d := Drift(e);
      var push := SeparationPush(w.enemies, i, d, w.geo);
      m := Chase(d, w.player.x, w.player.y, push, w.geo);
    }
    m := WallPull(m, w.currentMap.hazardType, w.width, w.height);
  }

  /** The lava pools the enemy walks over burn and push it; their damage numbers and draws go to the world. */
  method LavaTurn(w: World, e: Enemy) returns (r: LavaResult)
    requires w.Valid() && EnemyOk(e)
    modifies w`indicators, w`draws
    ensures w.Valid() && EnemyOk(r.e)
    ensures r == LavaAfter(e, w.hazards, |w.hazards|, w.player.x, w.player.y, w.geo, w.random, old(w.draws))
    ensures w.indicators == old(w.indicators) + r.inds && w.draws == old(w.draws) + r.used
  {
    r := LavaPass(e, w.hazards, w.player.x, w.player.y, w.geo, w.random, w.draws);
    w.indicators := w.indicators + r.inds;
    w.draws := w.draws + r.used;
  }

  /** The player's projectiles hit the enemy: its damage and knockback, their pierce, one damage number per hit. */
  method HitTurn(w: World, e: Enemy) returns (r: Enemy)
    requires w.Valid() && EnemyOk(e)
    modifies w`projectiles, w`indicators
    ensures w.Valid() && EnemyOk(r)
    ensures r == AfterHits(e, old(w.projectiles), |old(w.projectiles)|)
    ensures w.projectiles == PiercedAll(old(w.projectiles), ReachOf(e))
    ensures w.indicators == old(w.indicators) + HitIndicators(old(w.projectiles), ReachOf(e), |old(w.projectiles)|)
  {
    var h := HitPass(e, w.projectiles);
    w.PutProjectiles(h.ps);
    w.indicators := w.indicators + h.inds;
    r := h.e;
  }

  /** A living enemy approaches: it animates if it has animations (`a`), then moves. */
  method Approach(w: World, i: nat) returns (e: Enemy, ghost a: Enemy)
    requires w.Valid() && i < |w.enemies| && w.enemies[i].state != Death
    modifies w`projectiles, w`shake, w`feedbackTimer, w`indicators, w`events
    modifies w.player`hp, w.player`state, w.player`frame, w.player`abilityActiveTimer
    ensures w.Valid() && EnemyOk(e)
    ensures a == if IsAnimated(w.enemies[i].kind) then Animated(w.enemies[i], w.player.x, w.player.y) else w.enemies[i]
    ensures e == WallPull(Moved(a, w.enemies, i, w.player.x, w.player.y, w.geo, w.width, w.height),
                          w.currentMap.hazardType, w.width, w.height)
    ensures Rewarded(e) == Rewarded(w.enemies[i])
    ensures w.projectiles == old(w.projectiles) + Thrown(w.enemies[i], ArenaOf(w))
    ensures w.player.hp <= old(w.player.hp)
  {
    e := w.enemies[i];
    assert EnemyOk(e);
    if IsAnimated(e.kind) {
      e := AnimateLiving(w, e);
    }
    a := e;
    e := MoveOf(w, i, e);
  }

  /** The enemy meets the lava pools (`lava`), then the projectiles as they stand. */
  method Exposure(w: World, e: Enemy) returns (r: Enemy, ghost lava: LavaResult)
    requires w.Valid() && EnemyOk(e)
    modifies w`projectiles, w`indicators, w`draws
    ensures w.Valid() && EnemyOk(r)
    ensures lava == LavaAfter(e, w.hazards, |w.hazards|, w.player.x, w.player.y, w.geo, w.random, old(w.draws))
    ensures r == AfterHits(lava.e, old(w.projectiles), |old(w.projectiles)|)
    ensures w.projectiles == PiercedAll(old(w.projectiles), ReachOf(lava.e))
    ensures Rewarded(r) == Rewarded(e)
    ensures w.draws == old(w.draws) + lava.used
  {
    var l := LavaTurn(w, e);
    lava := l;
    r := HitTurn(w, l.e);
  }

  /** A rusher or a boss that touches the player hurts them, while it is alive and nothing protects the player. */
  method ContactTurn(w: World, e: Enemy)
    requires w.Valid() && EnemyOk(e)
    modifies w`shake, w`feedbackTimer, w`indicators, w`events
    modifies w.player`hp, w.player`state, w.player`frame, w.player`abilityActiveTimer
    ensures w.Valid()
    ensures var hit := && !IsAnimated(e.kind) && Within(w.player.x, w.player.y, e.x, e.y, w.player.radius + e.radius)
                       && e.hp > 0.0 && Exposed(old(w.feedbackTimer), w.player.activeAbility, old(w.player.abilityActiveTimer));
      && (hit ==> w.feedbackTimer == 30)
      && (hit && ShieldActive(w.player.activeAbility, old(w.player.abilityActiveTimer)) ==>
            w.player.hp == old(w.player.hp) && w.player.abilityActiveTimer == 0)
      && (hit && !ShieldActive(w.player.activeAbility, old(w.player.abilityActiveTimer)) ==>
            && w.player.hp == old(w.player.hp) - ArmorDamage(e.damage, w.player.armor)
            && w.player.state == Hurt && w.player.frame == 0
            && w.events == old(w.events) + GameOverIf(w.player.hp, w.score, w.kills))
      && (!hit ==> w.feedbackTimer == old(w.feedbackTimer) && w.player.hp == old(w.player.hp) && w.shake == old(w.shake)
                   && w.player.abilityActiveTimer == old(w.player.abilityActiveTimer) && w.indicators == old(w.indicators)
                   && w.events == old(w.events))
    ensures w.player.hp <= old(w.player.hp)
  {
    var p := w.player;
    StrikeIf(w, !IsAnimated(e.kind) && Within(p.x, p.y, e.x, e.y, p.radius + e.radius) && e.hp > 0.0
                && Exposed(w.feedbackTimer, p.activeAbility, p.abilityActiveTimer), e.damage);
  }

  /**
   * The end of the turn: a killed rusher or boss is marked for removal at
   * once, a killed enemy is paid for if nobody has yet, and `e` goes back
   * into slot `i`.
   */
  method SettleTurn(w: World, i: nat, e: Enemy)
    requires w.Valid() && i < |w.enemies| && EnemyOk(e)
    modifies w`enemies, w`score, w`kills, w`shake, w`loot, w`draws
    ensures w.Valid()
    ensures w.enemies == old(w.enemies)[i := Settle(e)]
    ensures w.draws == old(w.draws) + if e.hp <= 0.0 && !Rewarded(e) then 1 else 0
    ensures Books(e, w.enemies[i], old(w.kills), w.kills, old(w.loot), w.loot)
  {
    if e.hp <= 0.0 {
      var d := e.(marked := e.marked || !IsAnimated(e.kind));
      if !e.rewardsProcessed {
        Reward(w, i, d);
      } else {
        w.PutEnemy(i, d);
      }
    } else {
      w.PutEnemy(i, e);
    }
  }

  /**
   * A living enemy's turn: it approaches, meets the lava and the
   * projectiles, may hurt the player on contact, and is paid for if it was
   * killed.
   */
  method LivingTurn(w: World, i: nat, ghost ar: Arena) returns (ghost t: Turned)
    requires w.Valid() && i < |w.enemies| && w.enemies[i].state != Death && ar == ArenaOf(w)
    modifies w`enemies, w`projectiles, w`loot, w`indicators, w`draws, w`shake, w`feedbackTimer, w`events, w`score, w`kills
    modifies w.player`hp, w.player`state, w.player`frame, w.player`abilityActiveTimer
    ensures w.Valid() && |w.enemies| == |old(w.enemies)|
    ensures t == LivedTurn(old(w.enemies), i, ar, old(w.projectiles), old(w.draws))
    ensures w.enemies == old(w.enemies)[i := t.e] && w.projectiles == t.ps && w.draws == t.d
    ensures w.player.hp <= old(w.player.hp)
    ensures Kept(old(w.enemies), w.enemies, i, old(w.kills), w.kills, old(w.loot), w.loot)
  {
    var r;
    r, t := Act(w, i, ar);
    Finish(w, i, r);
  }

  /** The rest of a living enemy's turn once it has acted as `r`: contact with the player, then settling. */
  method Finish(w: World, i: nat, r: Enemy)
    requires w.Valid() && i < |w.enemies| && EnemyOk(r) && Rewarded(r) == Rewarded(w.enemies[i])
    modifies w`enemies, w`loot, w`indicators, w`draws, w`shake, w`feedbackTimer, w`events, w`score, w`kills
    modifies w.player`hp, w.player`state, w.player`frame, w.player`abilityActiveTimer
    ensures w.Valid()
    ensures w.enemies == old(w.enemies)[i := Settle(r)]
    ensures w.draws == old(w.draws) + if r.hp <= 0.0 && !Rewarded(r) then 1 else 0
    ensures w.player.hp <= old(w.player.hp)
    ensures Kept(old(w.enemies), w.enemies, i, old(w.kills), w.kills, old(w.loot), w.loot)
  {
    ContactTurn(w, r);
    SettleTurn(w, i, r);
  }

  /** A living enemy approaches and meets the lava and the projectiles; `r` is the enemy before it is settled. */
  method Act(w: World, i: nat, ghost ar: Arena) returns (r: Enemy, ghost t: Turned)
    requires w.Valid() && i < |w.enemies| && w.enemies[i].state != Death && ar == ArenaOf(w)
    modifies w`projectiles, w`shake, w`feedbackTimer, w`indicators, w`events, w`draws
    modifies w.player`hp, w.player`state, w.player`frame, w.player`abilityActiveTimer
    ensures w.Valid() && EnemyOk(r) && Rewarded(r) == Rewarded(w.enemies[i])
    ensures t == LivedTurn(w.enemies, i, ar, old(w.projectiles), old(w.draws))
    ensures t == Turned(Settle(r), w.projectiles, w.draws + if r.hp <= 0.0 && !Rewarded(r) then 1 else 0)
    ensures w.player.hp <= old(w.player.hp)
  {
    ghost var ps, d := w.projectiles, w.draws;
    var e, a := Approach(w, i);
    ghost var lava;
    r, lava := Exposure(w, e);
    LivingOutcome(w.enemies, i, ar, ps, d, a, e, lava, r);
    t := LivedTurn(w.enemies, i, ar, ps, d);
  }

  /** The pieces of a living enemy's turn, put together, are its `LivedTurn`. */
  lemma LivingOutcome(es: seq<Enemy>, i: nat, ar: Arena, ps: seq<Projectile>, d: nat, a: Enemy, m: Enemy, lava: LavaResult, r: Enemy)
    requires i < |es| && es[i].state != Death
    requires a == if IsAnimated(es[i].kind) then Animated(es[i], ar.px, ar.py) else es[i]
    requires m == WallPull(Moved(a, es, i, ar.px, ar.py, ar.geo, ar.width, ar.height), ar.hazardType, ar.width, ar.height)
    requires lava == LavaAfter(m, ar.hazards, |ar.hazards|, ar.px, ar.py, ar.geo, ar.random, d)
    requires r == AfterHits(lava.e, ps + Thrown(es[i], ar), |ps + Thrown(es[i], ar)|)
    ensures LivedTurn(es, i, ar, ps, d)
         == Turned(Settle(r), PiercedAll(ps + Thrown(es[i], ar), ReachOf(lava.e)),
                   d + lava.used + if r.hp <= 0.0 && !Rewarded(r) then 1 else 0)
  {
  }

  /**
   * One enemy's turn. A dying enemy only collects its reward and animates;
   * any other acts, may hurt the player on contact, and is paid for if it
   * was killed. Afterwards a killed enemy has been paid for, and the kills
   * and the loot grew exactly when its reward flag was set in this turn.
   */
  method EnemyTurn(w: World, i: nat, ghost ar: Arena) returns (ghost t: Turned)
    requires w.Valid() && i < |w.enemies| && ar == ArenaOf(w)
    modifies w`enemies, w`projectiles, w`loot, w`indicators, w`draws, w`shake, w`feedbackTimer, w`events, w`score, w`kills
    modifies w.player`hp, w.player`state, w.player`frame, w.player`abilityActiveTimer
    ensures w.Valid() && |w.enemies| == |old(w.enemies)|
    ensures t == TurnOf(old(w.enemies), i, ar, old(w.projectiles), old(w.draws))
    ensures w.enemies == old(w.enemies)[i := t.e] && w.projectiles == t.ps && w.draws == t.d
    ensures w.player.hp <= old(w.player.hp)
    ensures Kept(old(w.enemies), w.enemies, i, old(w.kills), w.kills, old(w.loot), w.loot)
  {
    if w.enemies[i].state == Death {
      DyingTurn(w, i);
      t := TurnOf(old(w.enemies), i, ar, old(w.projectiles), old(w.draws));
    } else {
      t := LivingTurn(w, i, ar);
    }
  }

  // ---------------------------------------------------------------------------
  // The whole stage

  /**
   * The books of the stage so far, from enemies `es0`, kills `k0` and loot
   * `l0` at its start: no reward flag was cleared, the loot list only grew,
   * and the kills and the loot each grew by exactly the number of flags set.
   */
  predicate Ledger(es0: seq<Enemy>, es: seq<Enemy>, k0: int, k: int, l0: seq<Loot>, l: seq<Loot>)
  {
    && |es0| == |es|
    && (forall j :: 0 <= j < |es| ==> Rewarded(es0[j]) ==> Rewarded(es[j]))
    && |l0| <= |l| && l[..|l0|] == l0
    && k - k0 == |l| - |l0| == Count(es, Rewarded) - Count(es0, Rewarded)
  }

  /** Every killed enemy among the first `n` has been paid for. */
  predicate PaidUpTo(es: seq<Enemy>, n: nat)
  {
    forall j :: 0 <= j < n && j < |es| ==> es[j].hp <= 0.0 ==> Rewarded(es[j])
  }

  /** Enemy `i` alone changed, by a turn that kept its books and paid for a kill. */
  predicate Kept(es: seq<Enemy>, es': seq<Enemy>, i: nat, k: int, k': int, l: seq<Loot>, l': seq<Loot>)
  {
    && i < |es| == |es'| && es' == es[i := es'[i]]
    && Books(es[i], es'[i], k, k', l, l') && (es'[i].hp <= 0.0 ==> Rewarded(es'[i]))
  }

  /** An enemy's turn, kept by its own books and paying for a kill, keeps the books of the stage. */
  lemma LedgerStep(es0: seq<Enemy>, es: seq<Enemy>, es': seq<Enemy>, i: nat, k0: int, k: int, k': int,
                   l0: seq<Loot>, l: seq<Loot>, l': seq<Loot>)
    requires Ledger(es0, es, k0, k, l0, l) && PaidUpTo(es, i)
    requires Kept(es, es', i, k, k', l, l')
    ensures Ledger(es0, es', k0, k', l0, l') && PaidUpTo(es', i + 1)
  {
    CountUpdate(es, i, es'[i], Rewarded);
    assert l'[..|l0|] == l'[..|l|][..|l0|];
  }

  /** Nothing has happened yet. */
  lemma LedgerStart(es: seq<Enemy>, k: int, l: seq<Loot>)
    ensures Ledger(es, es, k, k, l, l) && PaidUpTo(es, 0)
  {
  }

  /**
   * The stage after its first `i` turns, from enemies `es0`: the enemies not
   * yet played are as they were, and enemy `j` played on the list as it
   * stood then (those before it played, the rest not yet), meeting the
   * projectiles `pss[j]` with `ds[j]` draws taken and leaving `pss[j + 1]`
   * and `ds[j + 1]`.
   */
  ghost predicate Played(es0: seq<Enemy>, es: seq<Enemy>, ar: Arena, pss: seq<seq<Projectile>>, ds: seq<nat>, i: nat)
  {
    && i <= |es| == |es0| && |pss| == |ds| == i + 1
    && (forall j :: i <= j < |es| ==> es[j] == es0[j])
    && forall j :: 0 <= j < i ==> PlayedAt(es0, es, ar, pss, ds, j)
  }

  /** Enemy `j` played on the list as it stood then: those before it played, the rest not yet. */
  ghost predicate PlayedAt(es0: seq<Enemy>, es: seq<Enemy>, ar: Arena, pss: seq<seq<Projectile>>, ds: seq<nat>, j: nat)
    requires j < |es| == |es0| && j + 1 < |pss| && j + 1 < |ds|
  {
    TurnOf(es[..j] + es0[j..], j, ar, pss[j], ds[j]) == Turned(es[j], pss[j + 1], ds[j + 1])
  }

  lemma PlayedStart(es: seq<Enemy>, ar: Arena, ps: seq<Projectile>, d: nat)
    ensures Played(es, es, ar, [ps], [d], 0)
  {
  }

  /** Enemy `i`'s turn on the list as it stands is one more turn of the stage. */
  lemma PlayedStep(es0: seq<Enemy>, es: seq<Enemy>, ar: Arena, pss: seq<seq<Projectile>>, ds: seq<nat>, i: nat, t: Turned)
    requires Played(es0, es, ar, pss, ds, i) && i < |es|
    requires t == TurnOf(es, i, ar, pss[i], ds[i])
    ensures Played(es0, es[i := t.e], ar, pss + [t.ps], ds + [t.d], i + 1)
  {
    var es', pss', ds' := es[i := t.e], pss + [t.ps], ds + [t.d];
    assert es'[..i] + es0[i..] == es;
    forall j | 0 <= j < i + 1
      ensures PlayedAt(es0, es', ar, pss', ds', j)
    {
      if j < i {
        assert PlayedAt(es0, es, ar, pss, ds, j);
        assert es'[..j] == es[..j];
      }
    }
  }

  /**
   * The world after the first `i` turns of the stage, which started from
   * enemies `es0` and player health `hp0` in arena `ar`: the turns are
   * `Played`, the projectiles and the draws are the last turn's, and the
   * player's health has not risen.
   */
  ghost predicate Stage(w: World, es0: seq<Enemy>, hp0: real, ar: Arena, pss: seq<seq<Projectile>>, ds: seq<nat>, i: nat)
    reads w, w.player
  {
    && w.Valid() && ArenaOf(w) == ar && i <= |w.enemies|
    && Played(es0, w.enemies, ar, pss, ds, i) && pss[i] == w.projectiles && ds[i] == w.draws
    && w.player.hp <= hp0
  }

  /** Enemy `i`'s turn, as one more step of the stage, with the books `EnemyTurn` keeps. */
  method Play(w: World, i: nat, ghost es0: seq<Enemy>, ghost hp0: real, ghost ar: Arena,
              ghost pss: seq<seq<Projectile>>, ghost ds: seq<nat>) returns (ghost t: Turned)
    requires Stage(w, es0, hp0, ar, pss, ds, i) && i < |w.enemies|
    modifies w`enemies, w`projectiles, w`loot, w`indicators, w`draws, w`shake, w`feedbackTimer, w`events, w`score, w`kills
    modifies w.player`hp, w.player`state, w.player`frame, w.player`abilityActiveTimer
    ensures Stage(w, es0, hp0, ar, pss + [t.ps], ds + [t.d], i + 1)
    ensures Kept(old(w.enemies), w.enemies, i, old(w.kills), w.kills, old(w.loot), w.loot)
  {
    ghost var es := w.enemies;
    t := EnemyTurn(w, i, ar);
    PlayedStep(es0, es, ar, pss, ds, i, t);
  }

  /**
   * `updateEnemies`: every enemy takes its turn in list order, each on the
   * list as the turns before it left it (`TurnOf`), the projectiles and the
   * draws passing from one turn to the next (`pss`, `ds`). Afterwards an
   * enemy has been paid for exactly when it was killed, no reward was taken
   * back, the kills and the loot each grew by the number of rewards paid in
   * this stage (one per kill, whichever stage dealt it), and the player's
   * health has not risen.
   */
  method UpdateEnemies(w: World) returns (ghost pss: seq<seq<Projectile>>, ghost ds: seq<nat>)
    requires w.Valid()
    modifies w`enemies, w`projectiles, w`loot, w`indicators, w`draws, w`shake, w`feedbackTimer, w`events, w`score, w`kills
    modifies w.player`hp, w.player`state, w.player`frame, w.player`abilityActiveTimer
    ensures w.Valid()
    ensures Played(old(w.enemies), w.enemies, old(ArenaOf(w)), pss, ds, |w.enemies|)
    ensures pss[0] == old(w.projectiles) && ds[0] == old(w.draws)
    ensures pss[|w.enemies|] == w.projectiles && ds[|w.enemies|] == w.draws
    ensures Ledger(old(w.enemies), w.enemies, old(w.kills), w.kills, old(w.loot), w.loot)
    ensures forall j :: 0 <= j < |w.enemies| ==> (w.enemies[j].hp <= 0.0 <==> Rewarded(w.enemies[j]))
    ensures w.player.hp <= old(w.player.hp)
  {
    ghost var es0, k0, l0, hp0, ar := w.enemies, w.kills, w.loot, w.player.hp, ArenaOf(w);
    LedgerStart(es0, k0, l0);
    PlayedStart(es0, ar, w.projectiles, w.draws);
    pss, ds := [w.projectiles], [w.draws];
    var n := |w.enemies|;
    var i := 0;
    while i < n
      invariant i <= n == |w.enemies|
      invariant Stage(w, es0, hp0, ar, pss, ds, i)
      invariant pss[0] == old(w.projectiles) && ds[0] == old(w.draws)
      invariant Ledger(es0, w.enemies, k0, w.kills, l0, w.loot) && PaidUpTo(w.enemies, i)
    {
      ghost var es, k, l := w.enemies, w.kills, w.loot;
      ghost var t := Play(w, i, es0, hp0, ar, pss, ds);
      LedgerStep(es0, es, w.enemies, i, k0, k, w.kills, l0, l, w.loot);
      pss, ds := pss + [t.ps], ds + [t.d];
      i := i + 1;
    }
    assert PaidUpTo(w.enemies, |w.enemies|);
  }
}
