/**
 * `updateProjectiles`: every projectile present at the start of the stage
 * takes one step by its owner and behaviour. Enemy shots fly and may hit the
 * player; orbitals stay put; beams and fire zones count down; the sword's
 * slash follows the player and ticks damage on the enemies it covers; a fire
 * zone burns every tenth frame; the rest fly, boomerangs home in, and a
 * flask that lands leaves a fire zone behind.
 */
module Projectiles {
  import opened Types
  import opened Util
  import opened Combat
  import opened GameLoop

  // ---------------------------------------------------------------------------
  // One projectile, on its own

  /** What a projectile's step reads besides the projectile itself; none of it changes during the stage. */
  datatype View = View(px: real, py: real, facing: int, width: real, height: real, geo: Geometry)

  /** Moves by the velocity and uses up one frame. */
  function Advance(p: Projectile): Projectile
  {
    p.(x := p.x + p.vx, y := p.y + p.vy, duration := p.duration - 1)
  }

  /** Marks for deletion when `c` holds; a mark is never cleared. */
  function Mark(p: Projectile, c: bool): Projectile { p.(marked := p.marked || c) }

  predicate OutOfBounds(p: Projectile, width: real, height: real)
  {
    p.x < -100.0 || p.x > width + 100.0 || p.y < -100.0 || p.y > height + 100.0
  }

  /** `proj.aoeRadius || 40`: a zero radius falls back to 40. */
  function BlastRadius(p: Projectile): (r: real)
    ensures p.aoeRadius >= 0.0 ==> r >= 0.0
  {
    if p.aoeRadius == 0.0 then 40.0 else p.aoeRadius
  }

  /** A player's flask on its last frame: this step it lands. */
  predicate Lands(p: Projectile) { p.owner == ByPlayer && p.behavior == LobShot && p.duration - 1 <= 0 }

  /** The fire zone a landing flask leaves where it lands: it burns for 180 frames and never runs out of pierce. */
  function FirePool(p: Projectile): (h: Projectile)
    ensures h.behavior == HazardZone && h.duration == 180 && h.owner == ByPlayer && !h.marked
    ensures h.x == p.x + p.vx && h.y == p.y + p.vy && h.damage == p.damage && h.aoeRadius == p.aoeRadius
  {
    var q := Advance(p);
    Projectile("hazard_", ByPlayer, q.x, q.y, 0.0, 0.0, BlastRadius(p), p.damage, 180, 999, HazardZone,
               p.aoeRadius, p.isMaxRank, false)
  }

  /** A boomerang slows by 5% each frame; in its last 60 frames it flies back at speed 8 and is caught within 20. */
  function BoomerangTurn(q: Projectile, v: View): Projectile
  {
    var slowed := q.(vx := q.vx * 0.95, vy := q.vy * 0.95);
    if q.duration < 60 then
      var angle := v.geo.atan2(v.py - q.y, v.px - q.x);
      Mark(slowed.(vx := v.geo.cos(angle) * 8.0, vy := v.geo.sin(angle) * 8.0), Within(v.px, v.py, q.x, q.y, 20.0))
    else slowed
  }

  /** Straight shots, boomerangs and flasks: fly, then expire by their own rule or by leaving the field (100 px margin). */
  function Flight(p: Projectile, v: View): Projectile
  {
    var q := Advance(p);
    var r := if p.behavior == BoomerangShot then BoomerangTurn(q, v)
             else if p.behavior == LobShot || p.behavior == StraightShot then Mark(q, q.duration <= 0)
             else q;
    Mark(r, OutOfBounds(r, v.width, v.height))
  }

  /** The sword's slash uses up a frame and follows the player, 40 px to the side it faces. */
  function SlashStep(p: Projectile, v: View): Projectile
  {
    var d := p.duration - 1;
    Mark(p.(duration := d, x := v.px + 40.0 * v.facing as real, y := v.py, vx := v.facing as real), d <= 0)
  }

  /**
   * A projectile's own step, everything but its effect on the player and the
   * enemies: an enemy shot flies and expires; an orbital is untouched; beams,
   * fire zones and slashes count down and expire at zero; the rest fly.
   */
  function ProjectileStep(p: Projectile, v: View): (r: Projectile)
    ensures r.id == p.id && r.owner == p.owner && r.behavior == p.behavior && r.radius == p.radius
    ensures r.damage == p.damage && r.pierce == p.pierce && r.aoeRadius == p.aoeRadius && r.isMaxRank == p.isMaxRank
    ensures p.marked ==> r.marked
    ensures p.owner == ByPlayer && p.behavior == OrbitShot ==> r == p
    ensures p.owner == ByEnemy || p.behavior != OrbitShot ==> r.duration == p.duration - 1
    ensures p.owner == ByPlayer && p.behavior in {LightningBeam, HazardZone, MeleeArc, StraightShot, LobShot} && r.duration <= 0 ==> r.marked
    ensures p.owner == ByEnemy && r.duration <= 0 ==> r.marked
    ensures Lands(p) ==> r.marked
  {
    if p.owner == ByEnemy then Mark(Advance(p), p.duration - 1 <= 0)
    else if p.behavior == OrbitShot then p
    else if p.behavior == LightningBeam || p.behavior == HazardZone then Mark(p.(duration := p.duration - 1), p.duration - 1 <= 0)
    else if p.behavior == MeleeArc then SlashStep(p, v)
    else Flight(p, v)
  }

  /** A fire zone burns on the frames where its remaining duration is a multiple of ten. */
  predicate Pulses(q: Projectile) { q.duration % 10 == 0 }

  // ---------------------------------------------------------------------------
  // Area damage: the slash's ticks and the fire zone's pulses

  /**
   * The damage numbers of one sweep: each enemy hit draws one value of
   * `Math.random` (in list order), and a draw below `chance` shows `ind`.
   */
  function ZoneIndicators(es: seq<Enemy>, hit: Enemy -> bool, random: nat -> real, d: nat, chance: real,
                          ind: DamageIndicator): (r: seq<DamageIndicator>)
    ensures |r| <= Count(es, hit)
    ensures forall k :: 0 <= k < |r| ==> r[k] == ind
  {
    if es == [] then []
    else
      (if hit(es[0]) then (if random(d) < chance then [ind] else []) else [])
      + ZoneIndicators(es[1..], hit, random, d + (if hit(es[0]) then 1 else 0), chance, ind)
  }

  lemma {:induction false} ZoneIndicatorsAppend(es: seq<Enemy>, x: Enemy, hit: Enemy -> bool, random: nat -> real, d: nat,
                                                chance: real, ind: DamageIndicator)
    ensures ZoneIndicators(es + [x], hit, random, d, chance, ind)
         == ZoneIndicators(es, hit, random, d, chance, ind)
            + (if hit(x) then (if random(d + Count(es, hit)) < chance then [ind] else []) else [])
  {
    if es == [] {
      assert es + [x] == [x];
    } else {
      assert (es + [x])[1..] == es[1..] + [x];
      ZoneIndicatorsAppend(es[1..], x, hit, random, d + (if hit(es[0]) then 1 else 0), chance, ind);
    }
  }

  /** After `j` enemies of `es`: those `hit` accepts became `f` of themselves, the rest are as they were. */
  ghost predicate Swept(es: seq<Enemy>, out: seq<Enemy>, j: nat, hit: Enemy -> bool, f: Enemy -> Enemy)
  {
    && j <= |es| == |out|
    && (forall k :: 0 <= k < j ==> out[k] == if hit(es[k]) then f(es[k]) else es[k])
    && (forall k :: j <= k < |es| ==> out[k] == es[k])
  }

  lemma SweptOne(es: seq<Enemy>, out: seq<Enemy>, out': seq<Enemy>, j: nat, hit: Enemy -> bool, f: Enemy -> Enemy)
    requires Swept(es, out, j, hit, f) && j < |es|
    requires out' == if hit(es[j]) then out[j := f(es[j])] else out
    ensures Swept(es, out', j + 1, hit, f)
  {
  }

  /** A sweep whose effect keeps enemies well-formed keeps the whole list well-formed. */
  lemma SweptOk(es: seq<Enemy>, out: seq<Enemy>, hit: Enemy -> bool, f: Enemy -> Enemy)
    requires Swept(es, out, |es|, hit, f) && AllEnemiesOk(es)
    requires forall e :: EnemyOk(e) ==> EnemyOk(f(e))
    ensures AllEnemiesOk(out)
  {
    forall k | 0 <= k < |out|
      ensures EnemyOk(out[k])
    {
      assert EnemyOk(es[k]);
    }
  }

  /**
   * The `enemies.forEach` of a slash tick or a fire pulse: every enemy `hit`
   * accepts becomes `f` of itself, the others are untouched, each hit draws
   * once for its damage number.
   */
  method SweepZone(es: seq<Enemy>, hit: Enemy -> bool, f: Enemy -> Enemy, random: nat -> real, d: nat, chance: real,
                   ind: DamageIndicator) returns (out: seq<Enemy>, inds: seq<DamageIndicator>, used: nat)
    ensures |out| == |es|
    ensures forall j :: 0 <= j < |es| ==> out[j] == if hit(es[j]) then f(es[j]) else es[j]
    ensures inds == ZoneIndicators(es, hit, random, d, chance, ind)
    ensures used == Count(es, hit)
    ensures AllEnemiesOk(es) && (forall e :: EnemyOk(e) ==> EnemyOk(f(e))) ==> AllEnemiesOk(out)
  {
    out, inds, used := es, [], 0;
    var j := 0;
    while j < |es|
      invariant Swept(es, out, j, hit, f)
      invariant Drawn(es, inds, used, j, hit, random, d, chance, ind)
    {
      ghost var out0, inds0, used0 := out, inds, used;
      if hit(es[j]) {
        out := out[j := f(es[j])];
        if random(d + used) < chance {
          inds := inds + [ind];
        }
        used := used + 1;
      }
      SweptOne(es, out0, out, j, hit, f);
      DrawnOne(es, inds0, used0, inds, used, j, hit, random, d, chance, ind);
      j := j + 1;
    }
    assert es[..|es|] == es;
    if AllEnemiesOk(es) && (forall e :: EnemyOk(e) ==> EnemyOk(f(e))) {
      SweptOk(es, out, hit, f);
    }
  }

  /** After `j` enemies of `es`: the draws used and the damage numbers shown so far. */
  ghost predicate Drawn(es: seq<Enemy>, inds: seq<DamageIndicator>, used: nat, j: nat, hit: Enemy -> bool,
                        random: nat -> real, d: nat, chance: real, ind: DamageIndicator)
  {
    j <= |es| && used == Count(es[..j], hit) && inds == ZoneIndicators(es[..j], hit, random, d, chance, ind)
  }

  lemma DrawnOne(es: seq<Enemy>, inds: seq<DamageIndicator>, used: nat, inds': seq<DamageIndicator>, used': nat,
                 j: nat, hit: Enemy -> bool, random: nat -> real, d: nat, chance: real, ind: DamageIndicator)
    requires Drawn(es, inds, used, j, hit, random, d, chance, ind) && j < |es|
    requires inds' == if hit(es[j]) && random(d + used) < chance then inds + [ind] else inds
    requires used' == if hit(es[j]) then used + 1 else used
    ensures Drawn(es, inds', used', j + 1, hit, random, d, chance, ind)
  {
    assert es[..j + 1] == es[..j] + [es[j]];
    ZoneIndicatorsAppend(es[..j], es[j], hit, random, d, chance, ind);
    CountAppend(es[..j], [es[j]], hit);
  }

  /** A living enemy whose body overlaps the slash. */
  function SlashReach(q: Projectile): Enemy -> bool
  {
    e => IsAlive(e) && Within(e.x, e.y, q.x, q.y, q.radius + e.radius)
  }

  /** A slash tick deals a fifth of the slash's damage, rounded up. */
  function TickDamage(q: Projectile): (t: real)
    ensures q.damage >= 0.0 ==> t >= q.damage / 5.0 && t >= 0.0
  {
    Ceil(q.damage / 5.0) as real
  }

  /** One slash tick on an enemy: the damage, then a knockback of 2 away from the player. */
  function SlashHit(e: Enemy, tick: real, v: View): (r: Enemy)
    ensures r.(vx := e.vx, vy := e.vy) == DamageEnemy(e, tick, false)
    ensures EnemyOk(e) && tick >= 0.0 ==> EnemyOk(r)
  {
    var angle := v.geo.atan2(e.y - v.py, e.x - v.px);
    DamageEnemy(e, tick, false).(vx := e.vx + v.geo.cos(angle) * 2.0, vy := e.vy + v.geo.sin(angle) * 2.0)
  }

  function SlashTick(tick: real, v: View): Enemy -> Enemy { e => SlashHit(e, tick, v) }

  /** A living enemy within the fire zone's radius. */
  function PoolReach(q: Projectile): Enemy -> bool
  {
    e => IsAlive(e) && Within(e.x, e.y, q.x, q.y, BlastRadius(q))
  }

  /** A pulse burns for a fifth of the flask's damage. */
  function PulseDamage(q: Projectile): (d: real)
    ensures q.damage >= 0.0 ==> 0.0 <= d <= q.damage
  {
    q.damage * 0.2
  }

  function Burn(dmg: real): Enemy -> Enemy { e => DamageEnemy(e, dmg, false) }

  // ---------------------------------------------------------------------------
  // One projectile, in the world

  function ViewOf(px: real, py: real, facing: int, width: real, height: real, geo: Geometry): View
  {
    View(px, py, facing, width, height, geo)
  }

  /** An enemy shot touches the player; the hit lands unless the player is dead or dashing. */
  predicate ShotLands(q: Projectile, px: real, py: real, pr: real, hp: real, a: AbilityType, activeTimer: int)
  {
    Within(px, py, q.x, q.y, pr + q.radius) && hp > 0.0 && !DashActive(a, activeTimer)
  }

  /**
   * An enemy shot: it flies; if it then touches a living, non-dashing player
   * it strikes them (a shield absorbs it) and is used up.
   */
  method EnemyShot(w: World, i: nat)
    requires w.Valid() && i < |w.projectiles| && w.projectiles[i].owner == ByEnemy
    modifies w`projectiles, w.player`hp, w.player`state, w.player`frame, w.player`abilityActiveTimer
    modifies w`shake, w`feedbackTimer, w`indicators, w`events
    ensures w.Valid()
    ensures var q := ProjectileStep(old(w.projectiles[i]), ViewOf(w.player.x, w.player.y, w.player.facing, w.width, w.height, w.geo));
      var lands := ShotLands(q, w.player.x, w.player.y, w.player.radius, old(w.player.hp), w.player.activeAbility,
                             old(w.player.abilityActiveTimer));
      && w.projectiles == old(w.projectiles)[i := if lands then q.(marked := true) else q]
      && (!lands ==> w.player.hp == old(w.player.hp) && w.player.abilityActiveTimer == old(w.player.abilityActiveTimer)
                     && w.events == old(w.events) && w.indicators == old(w.indicators))
      && (lands && ShieldActive(w.player.activeAbility, old(w.player.abilityActiveTimer)) ==>
            w.player.hp == old(w.player.hp) && w.player.abilityActiveTimer == 0 && w.feedbackTimer == 30)
      && (lands && !ShieldActive(w.player.activeAbility, old(w.player.abilityActiveTimer)) ==>
            w.player.hp == old(w.player.hp) - ArmorDamage(q.damage, w.player.armor) && w.player.state == Hurt
            && w.feedbackTimer == 30 && w.events == old(w.events) + GameOverIf(w.player.hp, w.score, w.kills))
    ensures Wore(w, old(w.projectiles[i]))
  {
    var q := ProjectileStep(w.projectiles[i], ViewOf(w.player.x, w.player.y, w.player.facing, w.width, w.height, w.geo));
    var lands := ShotHits(w, q);
    if lands {
      q := q.(marked := true);
    }
    ProjectilesUpdate(w.projectiles, i, q);
    w.projectiles := w.projectiles[i := q];
    WearsRefl(w.enemies);
  }

  /** The stepped shot `q` strikes the player when it lands. */
  method ShotHits(w: World, q: Projectile) returns (lands: bool)
    requires w.Valid()
    modifies w.player`hp, w.player`state, w.player`frame, w.player`abilityActiveTimer
    modifies w`shake, w`feedbackTimer, w`indicators, w`events
    ensures w.Valid()
    ensures lands == ShotLands(q, w.player.x, w.player.y, w.player.radius, old(w.player.hp), w.player.activeAbility,
                               old(w.player.abilityActiveTimer))
    ensures !lands ==> w.player.hp == old(w.player.hp) && w.player.abilityActiveTimer == old(w.player.abilityActiveTimer)
                       && w.events == old(w.events) && w.indicators == old(w.indicators)
    ensures lands && ShieldActive(w.player.activeAbility, old(w.player.abilityActiveTimer)) ==>
              w.player.hp == old(w.player.hp) && w.player.abilityActiveTimer == 0 && w.feedbackTimer == 30
    ensures lands && !ShieldActive(w.player.activeAbility, old(w.player.abilityActiveTimer)) ==>
              w.player.hp == old(w.player.hp) - ArmorDamage(q.damage, w.player.armor) && w.player.state == Hurt
              && w.feedbackTimer == 30 && w.events == old(w.events) + GameOverIf(w.player.hp, w.score, w.kills)
    ensures w.player.hp <= old(w.player.hp) && old(w.indicators) <= w.indicators && old(w.events) <= w.events
  {
    lands := ShotLands(q, w.player.x, w.player.y, w.player.radius, w.player.hp, w.player.activeAbility, w.player.abilityActiveTimer);
    if lands {
      w.StrikePlayer(q.damage);
    }
  }

  lemma ProjectilesUpdate(ps: seq<Projectile>, i: nat, q: Projectile)
    requires ProjectilesOk(ps) && i < |ps| && q.damage >= 0.0 && q.aoeRadius >= 0.0
    ensures ProjectilesOk(ps[i := q])
  {
  }

  /** The sweep on the world's enemy list, its damage numbers and its draws. */
  method SweepWorld(w: World, hit: Enemy -> bool, f: Enemy -> Enemy, chance: real, ind: DamageIndicator)
    requires w.Valid() && forall e :: EnemyOk(e) ==> EnemyOk(f(e))
    requires forall e :: Worn(e, f(e))
    modifies w`enemies, w`indicators, w`draws
    ensures w.Valid()
    ensures |w.enemies| == |old(w.enemies)|
    ensures forall j :: 0 <= j < |w.enemies| ==> w.enemies[j] == if hit(old(w.enemies)[j]) then f(old(w.enemies)[j]) else old(w.enemies)[j]
    ensures w.indicators == old(w.indicators) + ZoneIndicators(old(w.enemies), hit, w.random, old(w.draws), chance, ind)
    ensures w.draws == old(w.draws) + Count(old(w.enemies), hit)
    ensures Wears(old(w.enemies), w.enemies) && old(w.indicators) <= w.indicators
  {
    var es, inds, used := SweepZone(w.enemies, hit, f, w.random, w.draws, chance, ind);
    SweepWears(w.enemies, es, hit, f);
    w.enemies, w.indicators, w.draws := es, w.indicators + inds, w.draws + used;
  }

  /** A sweep whose effect wears every enemy wears the list. */
  lemma SweepWears(es0: seq<Enemy>, es: seq<Enemy>, hit: Enemy -> bool, f: Enemy -> Enemy)
    requires |es| == |es0|
    requires forall j :: 0 <= j < |es| ==> es[j] == if hit(es0[j]) then f(es0[j]) else es0[j]
    requires forall e :: Worn(e, f(e))
    ensures Wears(es0, es)
  {
    forall j | 0 <= j < |es|
      ensures Worn(es0[j], es[j])
    {
      if hit(es0[j]) {
        assert Worn(es0[j], f(es0[j]));
      }
    }
  }

  /** A slash tick for a non-negative amount keeps an enemy well-formed. */
  lemma SlashTickOk(tick: real, v: View)
    requires tick >= 0.0
    ensures forall e :: EnemyOk(e) ==> EnemyOk(SlashTick(tick, v)(e))
  {
  }

  /** A slash tick for a non-negative amount wears every enemy. */
  lemma SlashTickWears(tick: real, v: View)
    requires tick >= 0.0
    ensures forall e :: Worn(e, SlashTick(tick, v)(e))
  {
    forall e
      ensures Worn(e, SlashTick(tick, v)(e))
    {
      DamageWears(e, tick, false);
    }
  }

  /** A burn for a non-negative amount keeps an enemy well-formed. */
  lemma BurnOk(dmg: real)
    requires dmg >= 0.0
    ensures forall e :: EnemyOk(e) ==> EnemyOk(Burn(dmg)(e))
  {
  }

  /** A burn for a non-negative amount wears every enemy. */
  lemma BurnWears(dmg: real)
    requires dmg >= 0.0
    ensures forall e :: Worn(e, Burn(dmg)(e))
  {
    forall e
      ensures Worn(e, Burn(dmg)(e))
    {
      DamageWears(e, dmg, false);
    }
  }

  /** The slash's step: it follows the player, then every living enemy it covers takes a tick. */
  method SlashStepIn(w: World, i: nat)
    requires w.Valid() && i < |w.projectiles| && w.projectiles[i].owner == ByPlayer && w.projectiles[i].behavior == MeleeArc
    modifies w`projectiles, w`enemies, w`indicators, w`draws
    ensures w.Valid()
    ensures var v := ViewOf(w.player.x, w.player.y, w.player.facing, w.width, w.height, w.geo);
      var q := ProjectileStep(old(w.projectiles[i]), v);
      && w.projectiles == old(w.projectiles)[i := q]
      && |w.enemies| == |old(w.enemies)|
      && (forall j :: 0 <= j < |w.enemies| ==>
            w.enemies[j] == if SlashReach(q)(old(w.enemies)[j]) then SlashHit(old(w.enemies)[j], TickDamage(q), v) else old(w.enemies)[j])
      && w.indicators == old(w.indicators) + ZoneIndicators(old(w.enemies), SlashReach(q), w.random, old(w.draws), 0.2,
                                                            DamageIndicator(Ceil(TickDamage(q)), 1.0, false, q.isMaxRank))
      && w.draws == old(w.draws) + Count(old(w.enemies), SlashReach(q))
    ensures Wore(w, old(w.projectiles[i]))
  {
    var v := ViewOf(w.player.x, w.player.y, w.player.facing, w.width, w.height, w.geo);
    var q := ProjectileStep(w.projectiles[i], v);
    SlashSweep(w, q, v);
    ProjectilesUpdate(w.projectiles, i, q);
    w.projectiles := w.projectiles[i := q];
  }

  /** The slash `q` ticks every living enemy it covers, each pushed away from the player at `v`. */
  method SlashSweep(w: World, q: Projectile, v: View)
    requires w.Valid() && q.damage >= 0.0
    modifies w`enemies, w`indicators, w`draws
    ensures w.Valid()
    ensures |w.enemies| == |old(w.enemies)|
    ensures forall j :: 0 <= j < |w.enemies| ==>
      w.enemies[j] == if SlashReach(q)(old(w.enemies)[j]) then SlashHit(old(w.enemies)[j], TickDamage(q), v) else old(w.enemies)[j]
    ensures w.indicators == old(w.indicators) + ZoneIndicators(old(w.enemies), SlashReach(q), w.random, old(w.draws), 0.2,
                                                               DamageIndicator(Ceil(TickDamage(q)), 1.0, false, q.isMaxRank))
    ensures w.draws == old(w.draws) + Count(old(w.enemies), SlashReach(q))
    ensures Wears(old(w.enemies), w.enemies) && old(w.indicators) <= w.indicators
  {
    var tick := TickDamage(q);
    SlashTickOk(tick, v);
    SlashTickWears(tick, v);
    SweepWorld(w, SlashReach(q), SlashTick(tick, v), 0.2, DamageIndicator(Ceil(tick), 1.0, false, q.isMaxRank));
  }

  /** The fire zone's step: it counts down and, on a pulse frame, burns every living enemy within its radius. */
  method PoolStepIn(w: World, i: nat)
    requires w.Valid() && i < |w.projectiles| && w.projectiles[i].owner == ByPlayer && w.projectiles[i].behavior == HazardZone
    modifies w`projectiles, w`enemies, w`indicators, w`draws
    ensures w.Valid()
    ensures var q := ProjectileStep(old(w.projectiles[i]), ViewOf(w.player.x, w.player.y, w.player.facing, w.width, w.height, w.geo));
      && w.projectiles == old(w.projectiles)[i := q]
      && |w.enemies| == |old(w.enemies)|
      && (!Pulses(q) ==> w.enemies == old(w.enemies) && w.indicators == old(w.indicators) && w.draws == old(w.draws))
      && (Pulses(q) ==>
            && (forall j :: 0 <= j < |w.enemies| ==>
                  w.enemies[j] == if PoolReach(q)(old(w.enemies)[j]) then DamageEnemy(old(w.enemies)[j], PulseDamage(q), false)
                                  else old(w.enemies)[j])
            && w.indicators == old(w.indicators) + ZoneIndicators(old(w.enemies), PoolReach(q), w.random, old(w.draws), 0.3,
                                                                  DamageIndicator(Ceil(PulseDamage(q)), 1.0, false, false))
            && w.draws == old(w.draws) + Count(old(w.enemies), PoolReach(q)))
    ensures Wore(w, old(w.projectiles[i]))
  {
    var q := ProjectileStep(w.projectiles[i], ViewOf(w.player.x, w.player.y, w.player.facing, w.width, w.height, w.geo));
    if Pulses(q) {
      BurnOk(PulseDamage(q));
      BurnWears(PulseDamage(q));
      SweepWorld(w, PoolReach(q), Burn(PulseDamage(q)), 0.3, DamageIndicator(Ceil(PulseDamage(q)), 1.0, false, false));
    } else {
      WearsRefl(w.enemies);
    }
    ProjectilesUpdate(w.projectiles, i, q);
    w.projectiles := w.projectiles[i := q];
  }

  /** Every other projectile of the player: its own step, and a landing flask leaves a fire zone appended to the list. */
  method PlainStepIn(w: World, i: nat)
    requires w.Valid() && i < |w.projectiles| && w.projectiles[i].owner == ByPlayer
    requires w.projectiles[i].behavior != MeleeArc && w.projectiles[i].behavior != HazardZone
    modifies w`projectiles
    ensures w.Valid()
    ensures var q := ProjectileStep(old(w.projectiles[i]), ViewOf(w.player.x, w.player.y, w.player.facing, w.width, w.height, w.geo));
      w.projectiles == old(w.projectiles)[i := q] + Landing(old(w.projectiles[i]))
    ensures Wore(w, old(w.projectiles[i]))
  {
    var q := ProjectileStep(w.projectiles[i], ViewOf(w.player.x, w.player.y, w.player.facing, w.width, w.height, w.geo));
    ProjectilesUpdate(w.projectiles, i, q);
    ProjectilesAppend(w.projectiles[i := q], Landing(w.projectiles[i]));
    w.projectiles := w.projectiles[i := q] + Landing(w.projectiles[i]);
    WearsRefl(w.enemies);
  }

  /** The fire zone a projectile leaves this step: one for a landing flask, none otherwise. */
  function Landing(p: Projectile): (r: seq<Projectile>)
    ensures |r| == (if Lands(p) then 1 else 0)
    ensures p.damage >= 0.0 && p.aoeRadius >= 0.0 ==> ProjectilesOk(r)
  {
    if Lands(p) then [FirePool(p)] else []
  }

  // ---------------------------------------------------------------------------
  // The stage

  /**
   * How projectile `k` changed once it had its turn: a player's projectile
   * took exactly its own step; an enemy shot took its step and was
   * possibly used up on the player.
   */
  predicate Took(old_p: Projectile, p: Projectile, v: View)
  {
    p in Outcomes(old_p, v)
  }

  /** A player's projectile has one outcome; an enemy shot may also be used up on the player. */
  function Outcomes(p: Projectile, v: View): set<Projectile>
  {
    var q := ProjectileStep(p, v);
    if p.owner == ByPlayer then {q} else {q, q.(marked := true)}
  }

  /** The fire zones left by the flasks that landed among `ps`, in list order. */
  function Landings(ps: seq<Projectile>): (r: seq<Projectile>)
    ensures |r| == Count(ps, LandsFn())
  {
    if ps == [] then [] else Landing(ps[0]) + Landings(ps[1..])
  }

  function LandsFn(): Projectile -> bool { p => Lands(p) }

  lemma {:induction false} LandingsAppend(ps: seq<Projectile>, p: Projectile)
    ensures Landings(ps + [p]) == Landings(ps) + Landing(p)
  {
    if ps == [] {
      assert ps + [p] == [p];
    } else {
      assert (ps + [p])[1..] == ps[1..] + [p];
      LandingsAppend(ps[1..], p);
    }
  }

  /** The outcomes open to each projectile of `ps` in this frame's view. */
  ghost function AllOutcomes(ps: seq<Projectile>, v: View): (r: seq<set<Projectile>>)
    ensures |r| == |ps| && forall k :: 0 <= k < |ps| ==> r[k] == Outcomes(ps[k], v)
  {
    seq(|ps|, k requires 0 <= k < |ps| => Outcomes(ps[k], v))
  }

  /**
   * After `i` turns: each of the first `i` took one of its outcomes `outs`,
   * the rest wait, and the landings so far follow them.
   */
  ghost predicate ProjectilesAfter(ps: seq<Projectile>, outs: seq<set<Projectile>>, cur: seq<Projectile>, i: nat)
  {
    && i <= |ps| == |outs|
    && |ps| <= |cur|
    && cur[|ps|..] == Landings(ps[..i])
    && (forall k :: 0 <= k < i ==> cur[k] in outs[k])
    && (forall k :: i <= k < |ps| ==> cur[k] == ps[k])
  }

  lemma AfterOne(ps: seq<Projectile>, outs: seq<set<Projectile>>, cur: seq<Projectile>, next: seq<Projectile>, i: nat)
    requires ProjectilesAfter(ps, outs, cur, i) && i < |ps|
    requires |next| == |cur| + |Landing(ps[i])| && next[i] in outs[i]
    requires next == cur[i := next[i]] + Landing(ps[i])
    ensures ProjectilesAfter(ps, outs, next, i + 1)
  {
    assert ps[..i + 1] == ps[..i] + [ps[i]];
    LandingsAppend(ps[..i], ps[i]);
    assert next[|ps|..] == cur[i := next[i]][|ps|..] + Landing(ps[i]);
    assert cur[i := next[i]][|ps|..] == cur[|ps|..];
  }

  /** A projectile that acts on enemies: the sword's slash or a fire zone. */
  predicate Zone(p: Projectile)
  {
    p.owner == ByPlayer && (p.behavior == MeleeArc || p.behavior == HazardZone)
  }

  /**
   * The side effects of projectile `p`'s turn: enemies are only worn, the
   * player's health never rises, damage numbers and events are only appended
   * and draws only used. A player's projectile leaves the player's health
   * and the events alone; one that is not a zone leaves the enemies and the
   * draws alone.
   */
  twostate predicate Wore(w: World, p: Projectile)
    reads w`enemies, w`indicators, w`events, w`draws, w.player`hp
  {
    && Wears(old(w.enemies), w.enemies)
    && w.player.hp <= old(w.player.hp)
    && old(w.indicators) <= w.indicators && old(w.events) <= w.events && old(w.draws) <= w.draws
    && (p.owner == ByPlayer ==> w.player.hp == old(w.player.hp) && w.events == old(w.events))
    && (!Zone(p) ==> w.enemies == old(w.enemies) && w.draws == old(w.draws))
  }

  /** Projectile `i`'s turn: it takes one of its outcomes, a landing flask appends its fire zone, with the side effects `Wore`. */
  method StepProjectile(w: World, i: nat)
    requires w.Valid() && i < |w.projectiles|
    modifies w`projectiles, w`enemies, w`indicators, w`draws, w`shake, w`feedbackTimer, w`events
    modifies w.player`hp, w.player`state, w.player`frame, w.player`abilityActiveTimer
    ensures w.Valid()
    ensures |w.enemies| == |old(w.enemies)|
    ensures |w.projectiles| == |old(w.projectiles)| + |Landing(old(w.projectiles[i]))|
    ensures Took(old(w.projectiles[i]), w.projectiles[i], ViewOf(w.player.x, w.player.y, w.player.facing, w.width, w.height, w.geo))
    ensures w.projectiles == old(w.projectiles)[i := w.projectiles[i]] + Landing(old(w.projectiles[i]))
    ensures Wore(w, old(w.projectiles[i]))
  {
    var p := w.projectiles[i];
    if p.owner == ByEnemy {
      EnemyShot(w, i);
    } else if p.behavior == MeleeArc {
      SlashStepIn(w, i);
    } else if p.behavior == HazardZone {
      PoolStepIn(w, i);
    } else {
      PlainStepIn(w, i);
    }
  }

  lemma NoTurnsYet(ps: seq<Projectile>, outs: seq<set<Projectile>>)
    requires |outs| == |ps|
    ensures ProjectilesAfter(ps, outs, ps, 0)
  {
    assert ps[..0] == [];
  }

  /** The world during the stage: valid, with `n` enemies, and the first `i` projectiles done. */
  ghost predicate Stage(w: World, ps: seq<Projectile>, outs: seq<set<Projectile>>, n: nat, i: nat)
    reads w, w.player
  {
    w.Valid() && |w.enemies| == n && ProjectilesAfter(ps, outs, w.projectiles, i)
  }

  /** Projectile `i`'s turn, as one more step of the stage, with the effects `StepProjectile` states. */
  method Turn(w: World, i: nat, ghost ps: seq<Projectile>, ghost outs: seq<set<Projectile>>, ghost v: View, ghost n: nat)
    requires Stage(w, ps, outs, n, i) && i < |ps|
    requires v == ViewOf(w.player.x, w.player.y, w.player.facing, w.width, w.height, w.geo)
    requires outs == AllOutcomes(ps, v)
    modifies w`projectiles, w`enemies, w`indicators, w`draws, w`shake, w`feedbackTimer, w`events
    modifies w.player`hp, w.player`state, w.player`frame, w.player`abilityActiveTimer
    ensures Stage(w, ps, outs, n, i + 1)
    ensures Wore(w, ps[i])
  {
    ghost var cur := w.projectiles;
    StepProjectile(w, i);
    AfterOne(ps, outs, cur, w.projectiles, i);
  }

  /**
   * `updateProjectiles`: the projectiles present at the start take their
   * turns in order (fire zones appended by landing flasks wait for the next
   * frame); afterwards the list is the stepped projectiles followed by one
   * fire zone per flask that landed. Over the stage every enemy is only
   * worn, the player's health never rises, damage numbers and events are
   * only appended and draws only used. Without enemy shots the player's
   * health and the events are untouched; without a slash or a fire zone the
   * enemies and the draws are.
   */
  method UpdateProjectiles(w: World, ghost v: View)
    requires w.Valid()
    requires v == ViewOf(w.player.x, w.player.y, w.player.facing, w.width, w.height, w.geo)
    modifies w`projectiles, w`enemies, w`indicators, w`draws, w`shake, w`feedbackTimer, w`events
    modifies w.player`hp, w.player`state, w.player`frame, w.player`abilityActiveTimer
    ensures w.Valid()
    ensures |w.enemies| == |old(w.enemies)|
    ensures ProjectilesAfter(old(w.projectiles), AllOutcomes(old(w.projectiles), v), w.projectiles, |old(w.projectiles)|)
    ensures Wears(old(w.enemies), w.enemies)
    ensures w.player.hp <= old(w.player.hp)
    ensures old(w.indicators) <= w.indicators && old(w.events) <= w.events && old(w.draws) <= w.draws
    ensures (forall k :: 0 <= k < |old(w.projectiles)| ==> old(w.projectiles)[k].owner == ByPlayer) ==>
      w.player.hp == old(w.player.hp) && w.events == old(w.events)
    ensures (forall k :: 0 <= k < |old(w.projectiles)| ==> !Zone(old(w.projectiles)[k])) ==>
      w.enemies == old(w.enemies) && w.draws == old(w.draws)
  {
    ghost var ps := w.projectiles;
    ghost var outs := AllOutcomes(ps, v);
    var n := |w.projectiles|;
    var i := 0;
    NoTurnsYet(ps, outs);
    WearsRefl(w.enemies);
    while i < n
      invariant i <= n
      invariant Stage(w, ps, outs, |old(w.enemies)|, i)
      invariant Wears(old(w.enemies), w.enemies)
      invariant w.player.hp <= old(w.player.hp)
      invariant old(w.indicators) <= w.indicators && old(w.events) <= w.events && old(w.draws) <= w.draws
      invariant (forall k :: 0 <= k < i ==> ps[k].owner == ByPlayer) ==> w.player.hp == old(w.player.hp) && w.events == old(w.events)
      invariant (forall k :: 0 <= k < i ==> !Zone(ps[k])) ==> w.enemies == old(w.enemies) && w.draws == old(w.draws)
    {
      ghost var es, inds, evs := w.enemies, w.indicators, w.events;
      Turn(w, i, ps, outs, v, |old(w.enemies)|);
      WearsTrans(old(w.enemies), es, w.enemies);
      PrefixTrans(old(w.indicators), inds, w.indicators);
      PrefixTrans(old(w.events), evs, w.events);
      i := i + 1;
    }
    ghost var cur := w.projectiles;
    assert ProjectilesAfter(ps, outs, cur, |ps|);
  }

  /** The lob-to-fire-zone cascade: every landed flask is marked, and the appended zones are exactly their fire zones. */
  lemma LandedFlasks(ps: seq<Projectile>, cur: seq<Projectile>, v: View, k: nat)
    requires ProjectilesAfter(ps, AllOutcomes(ps, v), cur, |ps|) && k < |ps| && Lands(ps[k])
    ensures cur[k].marked && |cur| == |ps| + Count(ps, LandsFn())
  {
    assert ps[..|ps|] == ps;
  }

  /** A hazard appended by the stage lasts 180 frames and sits where its flask landed. */
  lemma {:induction false} LandingsArePools(ps: seq<Projectile>, k: nat)
    requires k < |Landings(ps)|
    ensures exists j :: 0 <= j < |ps| && Lands(ps[j]) && Landings(ps)[k] == FirePool(ps[j])
  {
    if ps != [] {
      if Lands(ps[0]) && k == 0 {
        assert Landings(ps)[0] == FirePool(ps[0]);
      } else {
        var k' := if Lands(ps[0]) then k - 1 else k;
        LandingsArePools(ps[1..], k');
        var j :| 0 <= j < |ps[1..]| && Lands(ps[1..][j]) && Landings(ps[1..])[k'] == FirePool(ps[1..][j]);
        assert ps[j + 1] == ps[1..][j];
      }
    }
  }
}
