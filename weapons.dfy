/**
 * `updateWeapons`: every active weapon counts its timer down by one frame and,
 * when the timer has run out, fires by its type. Orbitals are topped up every
 * frame instead; lightning strikes the nearest enemies in range; the sword
 * swings only at an enemy close by; the other weapons aim at the nearest
 * living enemy.
 */
module Weapons {
  import opened Types
  import opened Util
  import opened Combat
  import opened GameLoop

  // ---------------------------------------------------------------------------
  // Target selection

  /** `forEach` over the living enemies keeping the first one strictly closer than the best so far. */
  ghost predicate FirstNearest(es: seq<Enemy>, px: real, py: real, limit: Option<real>, i: int)
  {
    && 0 <= i < |es| && IsAlive(es[i])
    && (limit.Some? ==> DistSq(es[i].x, es[i].y, px, py) < limit.value)
    && (forall j :: 0 <= j < |es| && IsAlive(es[j]) ==>
          DistSq(es[i].x, es[i].y, px, py) <= DistSq(es[j].x, es[j].y, px, py))
    && (forall j :: 0 <= j < i && IsAlive(es[j]) ==>
          DistSq(es[i].x, es[i].y, px, py) < DistSq(es[j].x, es[j].y, px, py))
  }

  /** Some living enemy lies strictly inside the (squared) limit, if there is one. */
  ghost predicate AnyLivingWithin(es: seq<Enemy>, px: real, py: real, limit: Option<real>)
  {
    exists j :: 0 <= j < |es| && IsAlive(es[j]) && (limit.Some? ==> DistSq(es[j].x, es[j].y, px, py) < limit.value)
  }

  /**
   * The closest living enemy, compared by squared distance (the same order
   * as by distance); `limit` is the squared starting distance, none for
   * `Infinity`.
   */
  method Nearest(es: seq<Enemy>, px: real, py: real, limit: Option<real>) returns (r: Option<nat>)
    ensures r.Some? ==> FirstNearest(es, px, py, limit, r.value)
    ensures r.None? <==> !AnyLivingWithin(es, px, py, limit)
  {
    r := None;
    var best := if limit.Some? then limit.value else 0.0;
    var i := 0;
    while i < |es|
      invariant 0 <= i <= |es|
      invariant r.None? ==> forall j :: 0 <= j < i && IsAlive(es[j]) ==>
        limit.Some? && DistSq(es[j].x, es[j].y, px, py) >= limit.value
      invariant r.None? && limit.Some? ==> best == limit.value
      invariant r.Some? ==> r.value < i && IsAlive(es[r.value]) && best == DistSq(es[r.value].x, es[r.value].y, px, py)
      invariant r.Some? ==> limit.Some? ==> best < limit.value
      invariant r.Some? ==> forall j :: 0 <= j < i && IsAlive(es[j]) ==> best <= DistSq(es[j].x, es[j].y, px, py)
      invariant r.Some? ==> forall j :: 0 <= j < r.value && IsAlive(es[j]) ==> best < DistSq(es[j].x, es[j].y, px, py)
    {
      if IsAlive(es[i]) {
        var d := DistSq(es[i].x, es[i].y, px, py);
        if (r.None? && limit.None?) || d < best {
          r, best := Some(i), d;
        }
      }
      i := i + 1;
    }
  }

  // ---------------------------------------------------------------------------
  // Orbitals

  predicate StartsWith(s: string, prefix: string) { |prefix| <= |s| && s[..|prefix|] == prefix }

  /** An orbital of weapon `wid`: an orbiting projectile whose id starts with the weapon's id. */
  predicate OwnedOrbital(wid: string, p: Projectile) { p.behavior == OrbitShot && StartsWith(p.id, wid) }

  function Owned(wid: string): Projectile -> bool { p => OwnedOrbital(wid, p) }

  /** A fresh orbital at the player's position; its id is the weapon's id and a suffix. */
  function NewOrbital(wp: Weapon, px: real, py: real): (p: Projectile)
    ensures OwnedOrbital(wp.id, p) && p.damage == wp.damage && p.pierce == 999
  {
    assert (wp.id + "_")[..|wp.id|] == wp.id;
    Projectile(wp.id + "_", ByPlayer, px, py, 0.0, 0.0, 8.0, wp.damage, wp.duration, 999, OrbitShot, 0.0, wp.rank >= 5, false)
  }

  /** Where the `idx`-th of `needed` orbitals sits at time `t`: on a circle of radius 80 around the player. */
  function OrbitPosition(geo: Geometry, wp: Weapon, px: real, py: real, t: int, idx: nat, needed: int): (real, real)
    requires needed >= 1
  {
    var speed := 0.05 + (wp.rank as real) * 0.01;
    var angle := (t as real) * speed + (idx as real / needed as real) * geo.pi * 2.0;
    (px + geo.cos(angle) * 80.0, py + geo.sin(angle) * 80.0)
  }

  /** An existing orbital takes its place on the circle and the weapon's current damage and rank. */
  function Orbit(p: Projectile, geo: Geometry, wp: Weapon, px: real, py: real, t: int, idx: nat): (r: Projectile)
    requires wp.projectileCount >= 1
    ensures r.id == p.id && r.behavior == p.behavior && r.damage == wp.damage && r.aoeRadius == p.aoeRadius
  {
    var pos := OrbitPosition(geo, wp, px, py, t, idx, wp.projectileCount);
    p.(x := pos.0, y := pos.1, damage := wp.damage, isMaxRank := wp.rank >= 5)
  }

  /**
   * The `forEach` over the weapon's orbitals: the `idx`-th one (in list
   * order) is placed at slot `idx`; every other projectile is untouched.
   */
  method PlaceOrbitals(ps: seq<Projectile>, geo: Geometry, wp: Weapon, px: real, py: real, t: int)
    returns (out: seq<Projectile>)
    requires wp.projectileCount >= 1
    ensures |out| == |ps|
    ensures forall j :: 0 <= j < |ps| ==>
      out[j] == if OwnedOrbital(wp.id, ps[j]) then Orbit(ps[j], geo, wp, px, py, t, Count(ps[..j], Owned(wp.id))) else ps[j]
  {
    out := ps;
    var idx := 0;
    var j := 0;
    while j < |ps|
      invariant 0 <= j <= |ps| && |out| == |ps|
      invariant idx == Count(ps[..j], Owned(wp.id))
      invariant forall k :: 0 <= k < j ==>
        out[k] == if OwnedOrbital(wp.id, ps[k]) then Orbit(ps[k], geo, wp, px, py, t, Count(ps[..k], Owned(wp.id))) else ps[k]
      invariant forall k :: j <= k < |ps| ==> out[k] == ps[k]
    {
      assert ps[..j + 1] == ps[..j] + [ps[j]];
      CountAppend(ps[..j], [ps[j]], Owned(wp.id));
      if OwnedOrbital(wp.id, ps[j]) {
        out := out[j := Orbit(ps[j], geo, wp, px, py, t, idx)];
        idx := idx + 1;
      }
      j := j + 1;
    }
  }

  /** Placing the orbitals keeps every projectile's id and behaviour, so the owned count is unchanged. */
  lemma {:induction false} OrbitKeepsOwned(ps: seq<Projectile>, out: seq<Projectile>, wid: string)
    requires |out| == |ps|
    requires forall j :: 0 <= j < |ps| ==> out[j].id == ps[j].id && out[j].behavior == ps[j].behavior
    ensures Count(out, Owned(wid)) == Count(ps, Owned(wid))
  {
    if ps != [] {
      OrbitKeepsOwned(ps[1..], out[1..], wid);
    }
  }

  /**
   * The orbital branch on the projectile list: the weapon's orbitals move to
   * their slots, and when it owns fewer than `projectileCount` of them, new
   * ones are added at the player until it owns exactly that many.
   */
  method TopUp(ps: seq<Projectile>, geo: Geometry, wp: Weapon, px: real, py: real, t: int) returns (out: seq<Projectile>)
    requires WeaponOk(wp)
    ensures |out| >= |ps|
    ensures Count(out, Owned(wp.id)) == MaxI(Count(ps, Owned(wp.id)), wp.projectileCount)
    ensures forall j :: 0 <= j < |ps| ==>
      out[j] == if OwnedOrbital(wp.id, ps[j]) then Orbit(ps[j], geo, wp, px, py, t, Count(ps[..j], Owned(wp.id))) else ps[j]
    ensures forall j :: |ps| <= j < |out| ==> out[j] == NewOrbital(wp, px, py)
    ensures ProjectilesOk(ps) ==> ProjectilesOk(out)
  {
    var have := Count(ps, Owned(wp.id));
    var placed := PlaceOrbitals(ps, geo, wp, px, py, t);
    OrbitKeepsOwned(ps, placed, wp.id);
    var extra := if have < wp.projectileCount then Repeat(NewOrbital(wp, px, py), wp.projectileCount - have) else [];
    OwnedRepeat(NewOrbital(wp, px, py), |extra|, wp.id);
    CountAppend(placed, extra, Owned(wp.id));
    out := placed + extra;
  }

  method TopUpOrbitals(w: World, wp: Weapon)
    requires w.Valid() && WeaponOk(wp)
    modifies w`projectiles
    ensures w.Valid()
    ensures Count(w.projectiles, Owned(wp.id)) == MaxI(Count(old(w.projectiles), Owned(wp.id)), wp.projectileCount)
  {
    w.projectiles := TopUp(w.projectiles, w.geo, wp, w.player.x, w.player.y, w.totalTime);
  }

  lemma {:induction false} OwnedRepeat(p: Projectile, n: nat, wid: string)
    requires OwnedOrbital(wid, p)
    ensures Count(Repeat(p, n), Owned(wid)) == n
  {
    if n > 0 {
      OwnedRepeat(p, n - 1, wid);
      CountAppend(Repeat(p, n - 1), [p], Owned(wid));
    }
  }

  // ---------------------------------------------------------------------------
  // Lightning

  function Range(n: nat): (r: seq<nat>)
    ensures |r| == n && forall i :: 0 <= i < n ==> r[i] == i
  {
    if n == 0 then [] else Range(n - 1) + [n - 1]
  }

  /** Living enemies strictly within 250 of the player. */
  function InLightningRange(es: seq<Enemy>, px: real, py: real): nat -> bool
  {
    (j: nat) => j < |es| && IsAlive(es[j]) && DistSq(es[j].x, es[j].y, px, py) < 250.0 * 250.0
  }

  function DistKey(es: seq<Enemy>, px: real, py: real): nat -> real
  {
    (j: nat) => if j < |es| then DistSq(es[j].x, es[j].y, px, py) else 0.0
  }

  /** The indices of the enemies in range, nearest first (ties in list order). */
  function LightningOrder(es: seq<Enemy>, px: real, py: real): (r: seq<nat>)
    ensures NoDup(r)
    ensures forall k :: 0 <= k < |r| ==> r[k] < |es| && InLightningRange(es, px, py)(r[k])
  {
    var c := Filter(Range(|es|), InLightningRange(es, px, py));
    FilterNoDup(Range(|es|), InLightningRange(es, px, py));
    SortByNoDup(c, DistKey(es, px, py));
    var r := SortBy(c, DistKey(es, px, py));
    assert forall k :: 0 <= k < |r| ==> r[k] in multiset(c);
    r
  }

  /** The number of bolts: the weapon's count, but no more than there are enemies in range. */
  function BoltCount(es: seq<Enemy>, px: real, py: real, wp: Weapon): (n: nat)
    requires wp.projectileCount >= 1
    ensures n <= |LightningOrder(es, px, py)|
  {
    MinI(wp.projectileCount, |LightningOrder(es, px, py)|)
  }

  /** The beam drawn to a struck enemy; it carries the target position in its velocity. */
  function Beam(target: Enemy, wp: Weapon, px: real, py: real): (p: Projectile)
    ensures p.behavior == LightningBeam && p.damage == 0.0 && p.duration == 5
  {
    Projectile("", ByPlayer, px, py, target.x, target.y, 1.0, 0.0, 5, 0, LightningBeam, 0.0, wp.rank >= 5, false)
  }

  /**
   * The first `n` enemies of `order` are struck for `dmg` (their hurt
   * animation restarts), and one beam is drawn to each, in order.
   */
  method StrikeInOrder(es: seq<Enemy>, order: seq<nat>, n: nat, dmg: real, wp: Weapon, px: real, py: real)
    returns (out: seq<Enemy>, beams: seq<Projectile>)
    requires n <= |order| && NoDup(order) && forall k :: 0 <= k < |order| ==> order[k] < |es|
    ensures |out| == |es| && |beams| == n
    ensures forall j :: 0 <= j < |es| ==> out[j] == if j in order[..n] then DamageEnemy(es[j], dmg, true) else es[j]
    ensures forall k :: 0 <= k < n ==> beams[k] == Beam(out[order[k]], wp, px, py)
    ensures AllEnemiesOk(es) && dmg >= 0.0 ==> AllEnemiesOk(out)
    ensures ProjectilesOk(beams)
  {
    out, beams := es, [];
    var k := 0;
    while k < n
      invariant 0 <= k <= n && |out| == |es| && |beams| == k
      invariant forall j :: 0 <= j < |es| ==> out[j] == if j in order[..k] then DamageEnemy(es[j], dmg, true) else es[j]
      invariant forall m :: 0 <= m < k ==> beams[m] == Beam(out[order[m]], wp, px, py)
      invariant ProjectilesOk(beams)
    {
      var j := order[k];
      assert order[..k + 1] == order[..k] + [j];
      assert j !in order[..k] by {
        forall m | 0 <= m < k ensures order[..k][m] != j { assert order[..k][m] == order[m]; }
      }
      out := out[j := DamageEnemy(es[j], dmg, true)];
      beams := beams + [Beam(out[j], wp, px, py)];
      k := k + 1;
    }
  }

  /**
   * The lightning branch's effect: of the enemies `es0`, the
   * `min(projectileCount, in range)` nearest living ones within 250 are
   * struck, and one beam each is appended to the projectiles `ps0`.
   */
  ghost predicate LightningStruck(es0: seq<Enemy>, es: seq<Enemy>, ps0: seq<Projectile>, ps: seq<Projectile>, wp: Weapon, px: real, py: real)
    requires WeaponOk(wp)
  {
    var order := LightningOrder(es0, px, py);
    var n := BoltCount(es0, px, py, wp);
    && |es| == |es0|
    && (forall j :: 0 <= j < |es| ==>
          es[j] == if j in order[..n] then DamageEnemy(es0[j], wp.damage, true) else es0[j])
    && |ps| == |ps0| + n
    && ps[..|ps0|] == ps0
    && (forall k :: 0 <= k < n ==> ps[|ps0| + k] == Beam(es[order[k]], wp, px, py))
  }

  /** The lightning branch, by `LightningStruck`. */
  method StrikeLightning(w: World, wp: Weapon)
    requires w.Valid() && WeaponOk(wp)
    modifies w`enemies, w`projectiles
    ensures w.Valid()
    ensures LightningStruck(old(w.enemies), w.enemies, old(w.projectiles), w.projectiles, wp, w.player.x, w.player.y)
  {
    var order := LightningOrder(w.enemies, w.player.x, w.player.y);
    var n := BoltCount(w.enemies, w.player.x, w.player.y, wp);
    var struck, beams := StrikeInOrder(w.enemies, order, n, wp.damage, wp, w.player.x, w.player.y);
    ProjectilesAppend(w.projectiles, beams);
    StruckInOrder(w.enemies, struck, w.projectiles, beams, wp, w.player.x, w.player.y);
    w.enemies, w.projectiles := struck, w.projectiles + beams;
  }

  /** Striking the lightning order's first `BoltCount` enemies, and appending their beams, is `LightningStruck`. */
  lemma StruckInOrder(es: seq<Enemy>, out: seq<Enemy>, ps: seq<Projectile>, beams: seq<Projectile>, wp: Weapon, px: real, py: real)
    requires WeaponOk(wp)
    requires var order, n := LightningOrder(es, px, py), BoltCount(es, px, py, wp);
      && |out| == |es| && |beams| == n
      && (forall j :: 0 <= j < |es| ==> out[j] == if j in order[..n] then DamageEnemy(es[j], wp.damage, true) else es[j])
      && (forall k :: 0 <= k < n ==> beams[k] == Beam(out[order[k]], wp, px, py))
    ensures LightningStruck(es, out, ps, ps + beams, wp, px, py)
  {
    assert (ps + beams)[..|ps|] == ps;
    forall k | 0 <= k < |beams|
      ensures (ps + beams)[|ps| + k] == beams[k]
    {
    }
  }

  /** Every living enemy within 250 of the player is in the lightning order. */
  lemma InLightningOrder(es: seq<Enemy>, px: real, py: real, b: nat)
    requires InLightningRange(es, px, py)(b)
    ensures b in LightningOrder(es, px, py)
  {
    var c := Filter(Range(|es|), InLightningRange(es, px, py));
    assert Range(|es|)[b] == b;
    assert b in c;
    assert b in multiset(c);
  }

  /** The lightning order is nearest first. */
  lemma LightningOrderSorted(es: seq<Enemy>, px: real, py: real)
    ensures SortedBy(LightningOrder(es, px, py), DistKey(es, px, py))
  {
    SortBySorted(Filter(Range(|es|), InLightningRange(es, px, py)), DistKey(es, px, py));
  }

  /** Nearest first: every struck enemy is at least as close as every enemy in range that was not struck. */
  lemma LightningNearestFirst(es: seq<Enemy>, px: real, py: real, wp: Weapon, a: nat, b: nat)
    requires wp.projectileCount >= 1
    requires var order := LightningOrder(es, px, py);
      a in order[..BoltCount(es, px, py, wp)] && InLightningRange(es, px, py)(b) && b !in order[..BoltCount(es, px, py, wp)]
    ensures DistSq(es[a].x, es[a].y, px, py) <= DistSq(es[b].x, es[b].y, px, py)
  {
    var order := LightningOrder(es, px, py);
    var n := BoltCount(es, px, py, wp);
    InLightningOrder(es, px, py, b);
    assert order == order[..n] + order[n..];
    LightningOrderSorted(es, px, py);
    PrefixBeforeRest(order, DistKey(es, px, py), n, a, b);
  }

  /** Exactly `min(projectileCount, enemies in range)` enemies are struck. */
  lemma LightningBoltCount(es: seq<Enemy>, px: real, py: real, wp: Weapon)
    requires wp.projectileCount >= 1
    ensures BoltCount(es, px, py, wp) == MinI(wp.projectileCount, Count(Range(|es|), InLightningRange(es, px, py)))
  {
    FilterCount(Range(|es|), InLightningRange(es, px, py));
  }

  // ---------------------------------------------------------------------------
  // Sword

  /** The sword's slash: a large hitbox 40 px in front of the player that lasts 15 frames and pierces everything. */
  function Slash(wp: Weapon, px: real, py: real, facing: int): (p: Projectile)
    ensures p.behavior == MeleeArc && p.damage == wp.damage && p.duration == 15 && p.pierce == 999
  {
    Projectile(wp.id + "_", ByPlayer, px + 40.0 * facing as real, py, facing as real, 0.0, 60.0, wp.damage, 15, 999,
               MeleeArc, 0.0, wp.rank >= 5, false)
  }

  /** The sword's reach, squared. */
  const SwordReach: real := 150.0 * 150.0

  /** The auto-facing rule: face the side the target is on, or keep facing when it is straight above or below. */
  function FaceToward(dx: real, facing: int): int
  {
    if dx > 0.0 then 1 else if dx < 0.0 then -1 else facing
  }

  /**
   * The sword branch's effect: with no living enemy within 150 nothing
   * happens; otherwise the player faces the closest one, starts the attack
   * animation, and the slash is added.
   */
  twostate predicate Swung(w: World, wp: Weapon, new target: Option<nat>)
    requires WeaponOk(wp)
    reads w`enemies, w`projectiles, w.player`x, w.player`y, w.player`facing, w.player`state, w.player`frame
  {
    && (target.Some? ==> FirstNearest(w.enemies, w.player.x, w.player.y, Some(SwordReach), target.value))
    && (target.None? <==> !AnyLivingWithin(w.enemies, w.player.x, w.player.y, Some(SwordReach)))
    && (target.None? ==>
          && w.projectiles == old(w.projectiles)
          && w.player.facing == old(w.player.facing) && w.player.state == old(w.player.state)
          && w.player.frame == old(w.player.frame))
    && (target.Some? ==>
          && w.player.facing == FaceToward(w.enemies[target.value].x - w.player.x, old(w.player.facing))
          && w.player.state == Attack && w.player.frame == 0
          && w.projectiles == old(w.projectiles) + [Slash(wp, w.player.x, w.player.y, w.player.facing)])
  }

  /** The sword branch, by `Swung`; returns the target. */
  method SwingSword(w: World, wp: Weapon) returns (target: Option<nat>)
    requires w.Valid() && WeaponOk(wp)
    modifies w`projectiles, w.player`facing, w.player`state, w.player`frame
    ensures w.Valid()
    ensures Swung(w, wp, target)
  {
    target := Nearest(w.enemies, w.player.x, w.player.y, Some(SwordReach));
    if target.Some? {
      var facing := FaceToward(w.enemies[target.value].x - w.player.x, w.player.facing);
      w.player.StartAttack(facing);
      w.projectiles := w.projectiles + [Slash(wp, w.player.x, w.player.y, facing)];
    }
  }

  // ---------------------------------------------------------------------------
  // Aimed weapons: pistol, shotgun, boomerang, molotov

  /** A pellet's turn off the aim, from a draw in [0, 1): at most 0.4 rad either way. */
  function PelletSpread(draw: real): (a: real)
    ensures 0.0 <= draw < 1.0 ==> -0.4 <= a < 0.4
  {
    (draw - 0.5) * 0.8
  }

  /** A pellet's speed, from a draw in [0, 1): the weapon's speed varied by up to 20% either way. */
  function PelletSpeed(base: real, draw: real): (s: real)
    ensures 0.0 <= draw < 1.0 && base >= 0.0 ==> 0.8 * base <= s <= 1.2 * base
  {
    FractionOf(base, draw);
    base * (0.8 + draw * 0.4)
  }

  /** A fraction in [0, 1) of a non-negative amount lies between nothing and all of it. */
  lemma FractionOf(base: real, draw: real)
    ensures 0.0 <= draw < 1.0 && base >= 0.0 ==> 0.0 <= base * draw <= base
  {
    if 0.0 <= draw < 1.0 && base >= 0.0 {
      assert base * draw <= base * 1.0;
    }
  }

  /** One shotgun pellet: the aim turned by its spread, at its own speed. */
  function Pellet(geo: Geometry, wp: Weapon, px: real, py: real, angle: real, spreadDraw: real, speedDraw: real): (p: Projectile)
    ensures p.behavior == StraightShot && p.pierce == 2 && p.damage == wp.damage && p.duration == wp.duration
    ensures p.x == px && p.y == py
    ensures var a, s := angle + PelletSpread(spreadDraw), PelletSpeed(wp.projectileSpeed, speedDraw);
      p.vx == geo.cos(a) * s && p.vy == geo.sin(a) * s
  {
    var spread := (spreadDraw - 0.5) * 0.8;
    var speed := wp.projectileSpeed * (0.8 + speedDraw * 0.4);
    Projectile("", ByPlayer, px, py, geo.cos(angle + spread) * speed, geo.sin(angle + spread) * speed, 4.0, wp.damage,
               wp.duration, 2, StraightShot, 0.0, wp.rank >= 5, false)
  }

  /** The shotgun's pellets: the `k`-th draws its spread and then its speed. */
  function Pellets(geo: Geometry, random: nat -> real, d: nat, wp: Weapon, px: real, py: real, angle: real): (r: seq<Projectile>)
    requires wp.projectileCount >= 1
    ensures |r| == wp.projectileCount
    ensures forall k :: 0 <= k < |r| ==> r[k].behavior == StraightShot && r[k].pierce == 2 && r[k].damage == wp.damage
  {
    seq(wp.projectileCount, k requires 0 <= k < wp.projectileCount =>
      Pellet(geo, wp, px, py, angle, random(d + 2 * k), random(d + 2 * k + 1)))
  }

  /** The shotgun's loop. */
  method ShotgunVolley(geo: Geometry, random: nat -> real, d: nat, wp: Weapon, px: real, py: real, angle: real)
    returns (pellets: seq<Projectile>)
    requires wp.projectileCount >= 1
    ensures pellets == Pellets(geo, random, d, wp, px, py, angle)
  {
    pellets := [];
    var k := 0;
    while k < wp.projectileCount
      invariant 0 <= k <= wp.projectileCount && |pellets| == k
      invariant forall m :: 0 <= m < k ==> pellets[m] == Pellet(geo, wp, px, py, angle, random(d + 2 * m), random(d + 2 * m + 1))
    {
      pellets := pellets + [Pellet(geo, wp, px, py, angle, random(d + 2 * k), random(d + 2 * k + 1))];
      k := k + 1;
    }
  }

  /** The `k`-th boomerang: the second one flies the opposite way. */
  function ThrownBoomerang(geo: Geometry, wp: Weapon, px: real, py: real, angle: real, k: int): (p: Projectile)
    ensures p.behavior == BoomerangShot && p.pierce == 999 && p.damage == wp.damage
  {
    var offset := if k == 1 then geo.pi else 0.0;
    Projectile("", ByPlayer, px, py, geo.cos(angle + offset) * wp.projectileSpeed, geo.sin(angle + offset) * wp.projectileSpeed,
               6.0, wp.damage, wp.duration, 999, BoomerangShot, 0.0, wp.rank >= 5, false)
  }

  /** One boomerang, two back to back at rank 5. */
  function Boomerangs(geo: Geometry, wp: Weapon, px: real, py: real, angle: real): (r: seq<Projectile>)
    ensures |r| == (if wp.rank == 5 then 2 else 1)
    ensures forall k :: 0 <= k < |r| ==> r[k].behavior == BoomerangShot && r[k].damage == wp.damage
  {
    var first := ThrownBoomerang(geo, wp, px, py, angle, 0);
    if wp.rank == 5 then [first, ThrownBoomerang(geo, wp, px, py, angle, 1)] else [first]
  }

  /** The boomerang's loop. */
  method BoomerangVolley(geo: Geometry, wp: Weapon, px: real, py: real, angle: real) returns (out: seq<Projectile>)
    ensures out == Boomerangs(geo, wp, px, py, angle)
  {
    var count := if wp.rank == 5 then 2 else 1;
    out := [];
    var k := 0;
    while k < count
      invariant 0 <= k <= count && |out| == k
      invariant forall m :: 0 <= m < k ==> out[m] == ThrownBoomerang(geo, wp, px, py, angle, m)
    {
      out := out + [ThrownBoomerang(geo, wp, px, py, angle, k)];
      k := k + 1;
    }
  }

  /** A point scattered around `c` by a draw in [0, 1): at most half of `width` either way. */
  function Scatter(c: real, draw: real, width: real): (r: real)
    ensures 0.0 <= draw < 1.0 && width >= 0.0 ==> c - width / 2.0 <= r <= c + width / 2.0
  {
    FractionOf(width, draw);
    c + (draw - 0.5) * width
  }

  /** Where the flask is thrown: within 25 px of the target on each axis, or within 100 px of the player with no target. */
  function FlaskTarget(px: real, py: real, target: Option<Enemy>, dx: real, dy: real): (r: (real, real))
    ensures 0.0 <= dx < 1.0 && 0.0 <= dy < 1.0 && target.Some? ==>
      && target.value.x - 25.0 <= r.0 <= target.value.x + 25.0
      && target.value.y - 25.0 <= r.1 <= target.value.y + 25.0
    ensures 0.0 <= dx < 1.0 && 0.0 <= dy < 1.0 && target.None? ==>
      px - 100.0 <= r.0 <= px + 100.0 && py - 100.0 <= r.1 <= py + 100.0
  {
    if target.Some? then (Scatter(target.value.x, dx, 50.0), Scatter(target.value.y, dy, 50.0))
    else (Scatter(px, dx, 200.0), Scatter(py, dy, 200.0))
  }

  /**
   * The molotov's flask: thrown from the player at its target point, which
   * it reaches after its 30 frames; it burns over a radius that grows with
   * rank.
   */
  function Flask(wp: Weapon, px: real, py: real, target: Option<Enemy>, dx: real, dy: real): (p: Projectile)
    ensures p.behavior == LobShot && p.duration == 30 && p.pierce == 0 && p.aoeRadius == 40.0 + 10.0 * wp.rank as real
    ensures p.x == px && p.y == py
    ensures (p.x + 30.0 * p.vx, p.y + 30.0 * p.vy) == FlaskTarget(px, py, target, dx, dy)
  {
    var (tx, ty) := FlaskTarget(px, py, target, dx, dy);
    Projectile("", ByPlayer, px, py, (tx - px) / 30.0, (ty - py) / 30.0, 6.0, wp.damage, 30, 0, LobShot,
               40.0 + (wp.rank as real) * 10.0, wp.rank >= 5, false)
  }

  /** The pistol's single bolt. */
  function Bolt(geo: Geometry, wp: Weapon, px: real, py: real, angle: real): (p: Projectile)
    ensures p.behavior == StraightShot && p.pierce == 1 && p.damage == wp.damage
  {
    Projectile("", ByPlayer, px, py, geo.cos(angle) * wp.projectileSpeed, geo.sin(angle) * wp.projectileSpeed, 5.0,
               wp.damage, wp.duration, 1, StraightShot, 0.0, wp.rank >= 5, false)
  }

  /** The shotgun, boomerang and molotov fire without a target; the pistol needs one. */
  predicate FiresBlind(k: WeaponType) { k == Shotgun || k == Molotov || k == Boomerang }

  /** The angle an aimed weapon fires at: towards the target, or a random one (the frame's first draw) without a target. */
  function AimAngle(geo: Geometry, random: nat -> real, d: nat, px: real, py: real, target: Option<Enemy>): real
  {
    if target.Some? then geo.atan2(target.value.y - py, target.value.x - px) else random(d) * geo.pi * 2.0
  }

  /** How many values of `Math.random` a volley uses. */
  function VolleyDraws(wp: Weapon, target: Option<Enemy>): nat
  {
    (if target.Some? then 0 else 1)
    + (if wp.kind == Shotgun && wp.projectileCount >= 0 then 2 * wp.projectileCount else if wp.kind == Molotov then 2 else 0)
  }

  /**
   * The projectiles an aimed weapon adds when it fires: its own projectiles,
   * each carrying the weapon's damage, owned by the player and harmless to
   * the list invariant.
   */
  function Volley(geo: Geometry, random: nat -> real, d: nat, wp: Weapon, px: real, py: real, target: Option<Enemy>): (r: seq<Projectile>)
    requires WeaponOk(wp)
    ensures |r| == (if wp.kind == Shotgun then wp.projectileCount else if wp.kind == Boomerang && wp.rank == 5 then 2 else 1)
    ensures forall k :: 0 <= k < |r| ==> r[k].owner == ByPlayer && r[k].damage == wp.damage
    ensures ProjectilesOk(r)
    ensures wp.kind == Shotgun ==> forall k :: 0 <= k < |r| ==> r[k].behavior == StraightShot && r[k].pierce == 2
    ensures wp.kind == Molotov ==> forall k :: 0 <= k < |r| ==> r[k].behavior == LobShot
  {
    var angle := AimAngle(geo, random, d, px, py, target);
    var e := d + (if target.Some? then 0 else 1);
    match wp.kind
    case Shotgun => Pellets(geo, random, e, wp, px, py, angle)
    case Boomerang => Boomerangs(geo, wp, px, py, angle)
    case Molotov => [Flask(wp, px, py, target, random(e), random(e + 1))]
    case _ => [Bolt(geo, wp, px, py, angle)]
  }

  /** Builds the volley, running the shotgun's and the boomerang's loops. */
  method BuildVolley(geo: Geometry, random: nat -> real, d: nat, wp: Weapon, px: real, py: real, target: Option<Enemy>)
    returns (shots: seq<Projectile>)
    requires WeaponOk(wp)
    ensures shots == Volley(geo, random, d, wp, px, py, target)
  {
    var angle := AimAngle(geo, random, d, px, py, target);
    var e := d + (if target.Some? then 0 else 1);
    if wp.kind == Shotgun {
      shots := ShotgunVolley(geo, random, e, wp, px, py, angle);
    } else if wp.kind == Boomerang {
      shots := BoomerangVolley(geo, wp, px, py, angle);
    } else if wp.kind == Molotov {
      shots := [Flask(wp, px, py, target, random(e), random(e + 1))];
    } else {
      shots := [Bolt(geo, wp, px, py, angle)];
    }
  }

  function EnemyAt(es: seq<Enemy>, i: Option<nat>): Option<Enemy>
  {
    if i.Some? && i.value < |es| then Some(es[i.value]) else None
  }

  /**
   * The aimed branch's effect: with a living enemy, aim at the closest; with
   * none, the shotgun, boomerang and molotov aim at a random angle and the
   * pistol holds fire.
   */
  twostate predicate Aimed(w: World, wp: Weapon, new target: Option<nat>)
    requires WeaponOk(wp)
    reads w`enemies, w`projectiles, w`draws, w.player`x, w.player`y
  {
    var fired := target.Some? || FiresBlind(wp.kind);
    && (target.Some? ==> FirstNearest(w.enemies, w.player.x, w.player.y, None, target.value))
    && (target.None? <==> !AnyLivingWithin(w.enemies, w.player.x, w.player.y, None))
    && (fired ==>
          && w.projectiles == old(w.projectiles) + Volley(w.geo, w.random, old(w.draws), wp, w.player.x, w.player.y, EnemyAt(w.enemies, target))
          && w.draws == old(w.draws) + VolleyDraws(wp, EnemyAt(w.enemies, target)))
    && (!fired ==> w.projectiles == old(w.projectiles) && w.draws == old(w.draws))
  }

  /** The aimed branch, by `Aimed`; returns the target and whether it fired. */
  method FireAimed(w: World, wp: Weapon) returns (target: Option<nat>, fired: bool)
    requires w.Valid() && WeaponOk(wp) && wp.kind in {Pistol, Shotgun, Boomerang, Molotov}
    modifies w`projectiles, w`draws
    ensures w.Valid()
    ensures fired <==> target.Some? || FiresBlind(wp.kind)
    ensures Aimed(w, wp, target)
  {
    target := Nearest(w.enemies, w.player.x, w.player.y, None);
    fired := target.Some? || FiresBlind(wp.kind);
    if fired {
      var aim := EnemyAt(w.enemies, target);
      var shots := BuildVolley(w.geo, w.random, w.draws, wp, w.player.x, w.player.y, aim);
      ProjectilesAppend(w.projectiles, shots);
      w.projectiles, w.draws := w.projectiles + shots, w.draws + VolleyDraws(wp, aim);
    }
  }

  // ---------------------------------------------------------------------------
  // One weapon, all weapons

  /**
   * The weapon's timer after this frame: an inactive weapon keeps it; an
   * orbital, or a weapon still recharging, loses one frame; lightning always
   * restarts; the sword restarts after a swing and otherwise waits at 0; the
   * aimed weapons restart when they fire and otherwise keep counting down.
   */
  ghost function NextTimer(wp: Weapon, es: seq<Enemy>, px: real, py: real): real
  {
    var t := wp.timer - 1.0;
    if !wp.active then wp.timer
    else if wp.kind == Orbital || t > 0.0 then t
    else if wp.kind == Lightning then wp.cooldown
    else if wp.kind == Sword then (if AnyLivingWithin(es, px, py, Some(SwordReach)) then wp.cooldown else 0.0)
    else if AnyLivingWithin(es, px, py, None) || FiresBlind(wp.kind) then wp.cooldown
    else t
  }

  /** An active weapon that does not fire this frame: an orbital, or one whose timer has not yet run out. */
  predicate Recharging(wp: Weapon) { wp.active && (wp.kind == Orbital || wp.timer - 1.0 > 0.0) }

  /** An active weapon other than an orbital whose timer runs out this frame. */
  predicate Due(wp: Weapon) { wp.active && wp.kind != Orbital && wp.timer - 1.0 <= 0.0 }

  /**
   * The timer a due weapon may end at: lightning and the weapons that fire
   * blind always restart at their cooldown; the sword restarts or waits at
   * 0; the pistol restarts or, holding fire, keeps counting down.
   */
  predicate DueTimer(wp: Weapon, t: real)
  {
    if wp.kind == Sword then t == wp.cooldown || t == 0.0
    else if wp.kind == Lightning || FiresBlind(wp.kind) then t == wp.cooldown
    else t == wp.cooldown || t == wp.timer - 1.0
  }

  /**
   * The timer rules: an inactive weapon keeps its timer; a recharging one
   * loses one frame; a due one ends at its cooldown, at 0, or at its
   * counted-down value (an aimed weapon that held fire), as `DueTimer` says
   * for its kind; a due sword with no target waits at 0.
   */
  lemma NextTimerFacts(wp: Weapon, es: seq<Enemy>, px: real, py: real)
    ensures !wp.active ==> NextTimer(wp, es, px, py) == wp.timer
    ensures Recharging(wp) ==> NextTimer(wp, es, px, py) == wp.timer - 1.0
    ensures Due(wp) ==> DueTimer(wp, NextTimer(wp, es, px, py))
    ensures wp.active && wp.kind != Orbital && wp.timer - 1.0 <= 0.0 ==>
      NextTimer(wp, es, px, py) in {wp.cooldown, 0.0, wp.timer - 1.0}
    ensures wp.active && wp.kind == Sword && wp.timer - 1.0 <= 0.0 && !AnyLivingWithin(es, px, py, Some(SwordReach)) ==>
      NextTimer(wp, es, px, py) == 0.0
  {
  }

  /**
   * What a due weapon does, by type: lightning strikes by `LightningStruck`
   * and moves neither the player nor the draws; the sword swings by `Swung`
   * and leaves the enemies and the draws alone; the other weapons fire by
   * `Aimed` and leave the enemies and the player alone.
   */
  twostate predicate Fired(w: World, wp: Weapon, new target: Option<nat>)
    requires WeaponOk(wp)
    reads w`enemies, w`projectiles, w`draws, w.player`x, w.player`y, w.player`facing, w.player`state, w.player`frame
  {
    if wp.kind == Lightning then
      && target.None? && w.draws == old(w.draws)
      && w.player.facing == old(w.player.facing) && w.player.state == old(w.player.state)
      && w.player.frame == old(w.player.frame)
      && LightningStruck(old(w.enemies), w.enemies, old(w.projectiles), w.projectiles, wp, w.player.x, w.player.y)
    else if wp.kind == Sword then
      w.enemies == old(w.enemies) && w.draws == old(w.draws) && Swung(w, wp, target)
    else
      && w.enemies == old(w.enemies)
      && w.player.facing == old(w.player.facing) && w.player.state == old(w.player.state)
      && w.player.frame == old(w.player.frame)
      && Aimed(w, wp, target)
  }

  /** A weapon whose timer has run out fires by its type (`Fired`); returns its new timer and its target. */
  method Fire(w: World, wp: Weapon) returns (t: real, target: Option<nat>)
    requires w.Valid() && WeaponOk(wp) && wp.active && !Recharging(wp)
    modifies w`enemies, w`projectiles, w`draws, w.player`facing, w.player`state, w.player`frame
    ensures w.Valid()
    ensures |w.enemies| == |old(w.enemies)|
    ensures t == NextTimer(wp, old(w.enemies), w.player.x, w.player.y)
    ensures Fired(w, wp, target)
  {
    if wp.kind == Lightning {
      StrikeLightning(w, wp);
      t, target := wp.cooldown, None;
    } else if wp.kind == Sword {
      target := SwingSword(w, wp);
      t := if target.Some? then wp.cooldown else 0.0;
    } else {
      var fired;
      target, fired := FireAimed(w, wp);
      t := if fired then wp.cooldown else wp.timer - 1.0;
    }
  }

  /** A weapon that neither fires nor tends orbitals this frame: inactive, or a non-orbital still recharging. */
  predicate Quiet(wp: Weapon) { !wp.active || (wp.kind != Orbital && wp.timer - 1.0 > 0.0) }

  /**
   * One weapon's turn, apart from storing its timer: returns the new timer,
   * `NextTimer`, and the target. A quiet weapon changes nothing; an active
   * orbital weapon tops up its orbitals and touches neither the enemies nor
   * the draws; a due weapon fires by `Fired`.
   */
  method Turn(w: World, wp: Weapon) returns (t: real, target: Option<nat>)
    requires w.Valid() && WeaponOk(wp)
    modifies w`enemies, w`projectiles, w`draws, w.player`facing, w.player`state, w.player`frame
    ensures w.Valid()
    ensures |w.enemies| == |old(w.enemies)|
    ensures t == NextTimer(wp, old(w.enemies), w.player.x, w.player.y)
    ensures Quiet(wp) ==>
      && w.enemies == old(w.enemies) && w.projectiles == old(w.projectiles) && w.draws == old(w.draws)
      && w.player.facing == old(w.player.facing) && w.player.state == old(w.player.state)
      && w.player.frame == old(w.player.frame)
    ensures wp.active && wp.kind == Orbital ==>
      && w.enemies == old(w.enemies) && w.draws == old(w.draws)
      && w.player.facing == old(w.player.facing) && w.player.state == old(w.player.state)
      && w.player.frame == old(w.player.frame)
      && Count(w.projectiles, Owned(wp.id)) == MaxI(Count(old(w.projectiles), Owned(wp.id)), wp.projectileCount)
    ensures wp.active && !Recharging(wp) ==> Fired(w, wp, target)
  {
    t, target := wp.timer, None;
    if wp.active {
      if Recharging(wp) {
        if wp.kind == Orbital {
          TopUpOrbitals(w, wp);
        }
        t := wp.timer - 1.0;
      } else {
        t, target := Fire(w, wp);
      }
    }
  }

  /** `updateWeapons`' body for weapon `i`: `Turn`, then the weapon's timer is stored. */
  method FireWeapon(w: World, i: nat) returns (target: Option<nat>)
    requires w.Valid() && i < |w.player.weapons|
    modifies w`enemies, w`projectiles, w`draws, w.player`weapons, w.player`facing, w.player`state, w.player`frame
    ensures w.Valid()
    ensures |w.enemies| == |old(w.enemies)|
    ensures |w.player.weapons| == |old(w.player.weapons)|
    ensures forall k :: 0 <= k < |w.player.weapons| && k != i ==> w.player.weapons[k] == old(w.player.weapons)[k]
    ensures w.player.weapons[i] == old(w.player.weapons)[i].(
      timer := NextTimer(old(w.player.weapons)[i], old(w.enemies), old(w.player.x), old(w.player.y)))
    ensures var wp := old(w.player.weapons[i]);
      Quiet(wp) ==>
        && w.enemies == old(w.enemies) && w.projectiles == old(w.projectiles) && w.draws == old(w.draws)
        && w.player.facing == old(w.player.facing) && w.player.state == old(w.player.state)
        && w.player.frame == old(w.player.frame)
    ensures var wp := old(w.player.weapons[i]);
      wp.active && wp.kind == Orbital ==>
        && w.enemies == old(w.enemies) && w.draws == old(w.draws)
        && w.player.facing == old(w.player.facing) && w.player.state == old(w.player.state)
        && w.player.frame == old(w.player.frame)
        && Count(w.projectiles, Owned(wp.id)) == MaxI(Count(old(w.projectiles), Owned(wp.id)), wp.projectileCount)
    ensures var wp := old(w.player.weapons[i]);
      wp.active && !Recharging(wp) ==> Fired(w, wp, target)
  {
    var t;
    t, target := Turn(w, w.player.weapons[i]);
    w.player.SetWeaponTimer(i, t);
  }

  /**
   * The weapons `cur` after the first `i` of `ws` have had their turn: each
   * changed at most its timer, an inactive one kept it, a recharging one
   * lost one frame and a due one ended where `DueTimer` allows for its kind;
   * the rest are as they were.
   */
  ghost predicate Stepped(ws: seq<Weapon>, cur: seq<Weapon>, i: nat)
  {
    && i <= |ws| == |cur|
    && (forall k :: i <= k < |ws| ==> cur[k] == ws[k])
    && (forall k :: 0 <= k < i ==> cur[k] == ws[k].(timer := cur[k].timer))
    && (forall k :: 0 <= k < i && !ws[k].active ==> cur[k].timer == ws[k].timer)
    && (forall k :: 0 <= k < i && Recharging(ws[k]) ==> cur[k].timer == ws[k].timer - 1.0)
    && (forall k :: 0 <= k < i && Due(ws[k]) ==> DueTimer(ws[k], cur[k].timer))
  }

  lemma StepOne(ws: seq<Weapon>, cur: seq<Weapon>, next: seq<Weapon>, i: nat, es: seq<Enemy>, px: real, py: real)
    requires Stepped(ws, cur, i) && i < |ws| && |next| == |cur|
    requires forall k :: 0 <= k < |next| && k != i ==> next[k] == cur[k]
    requires next[i] == cur[i].(timer := NextTimer(cur[i], es, px, py))
    ensures Stepped(ws, next, i + 1)
  {
    NextTimerFacts(ws[i], es, px, py);
  }

  /**
   * `updateWeapons`: each weapon in turn. The list of weapons keeps its
   * length and every weapon changes at most its timer, as `Stepped` says:
   * kept when inactive, one frame less when recharging, and a value its
   * kind allows when due. When every weapon is quiet, nothing else changes:
   * no enemy, projectile, draw or animation.
   */
  method UpdateWeapons(w: World)
    requires w.Valid()
    modifies w`enemies, w`projectiles, w`draws, w.player`weapons, w.player`facing, w.player`state, w.player`frame
    ensures w.Valid()
    ensures |w.enemies| == |old(w.enemies)|
    ensures Stepped(old(w.player.weapons), w.player.weapons, |w.player.weapons|)
    ensures (forall k :: 0 <= k < |old(w.player.weapons)| ==> Quiet(old(w.player.weapons)[k])) ==>
      && w.enemies == old(w.enemies) && w.projectiles == old(w.projectiles) && w.draws == old(w.draws)
      && w.player.facing == old(w.player.facing) && w.player.state == old(w.player.state)
      && w.player.frame == old(w.player.frame)
  {
    ghost var ws := w.player.weapons;
    var i := 0;
    while i < |w.player.weapons|
      invariant w.Valid()
      invariant |w.enemies| == |old(w.enemies)|
      invariant Stepped(ws, w.player.weapons, i)
      invariant (forall k :: 0 <= k < i ==> Quiet(ws[k])) ==>
        && w.enemies == old(w.enemies) && w.projectiles == old(w.projectiles) && w.draws == old(w.draws)
        && w.player.facing == old(w.player.facing) && w.player.state == old(w.player.state)
        && w.player.frame == old(w.player.frame)
    {
      ghost var es, px, py, cur := w.enemies, w.player.x, w.player.y, w.player.weapons;
      var _ := FireWeapon(w, i);
      StepOne(ws, cur, w.player.weapons, i, es, px, py);
      i := i + 1;
    }
  }
}
