/**
 * The last three stages of a frame: particles and damage indicators fade,
 * and the map's hazards hurt the player (electric walls at the border every
 * 30 frames, every lava pool the player stands in every 20 frames).
 */
module Effects {
  import opened Types
  import opened Util
  import opened Combat
  import opened GameLoop

  // ---------------------------------------------------------------------------
  // Particles and damage indicators

  /** `updateParticles` on one particle: it loses its decay; once out of life it is marked, and a mark stays. */
  function Decay(pt: Particle): (r: Particle)
    ensures r.decay == pt.decay
  {
    var life := pt.life - pt.decay;
    Particle(life, pt.decay, pt.marked || life <= 0.0)
  }

  /** `n` frames of decay. */
  function DecayN(pt: Particle, n: nat): (r: Particle)
    ensures r.decay == pt.decay
  {
    if n == 0 then pt else Decay(DecayN(pt, n - 1))
  }

  /**
   * A particle that does not gain life is marked after `n >= 1` frames
   * exactly when it was marked already or `n` decays use up its life.
   */
  lemma {:induction false} ParticleExpires(pt: Particle, n: nat)
    requires pt.decay >= 0.0 && n >= 1
    ensures DecayN(pt, n).life == pt.life - (n as real) * pt.decay
    ensures DecayN(pt, n).marked <==> pt.marked || pt.life - (n as real) * pt.decay <= 0.0
  {
    var prev := DecayN(pt, n - 1);
    assert DecayN(pt, n) == Decay(prev);
    if n == 1 {
      assert prev == pt;
    } else {
      ParticleExpires(pt, n - 1);
      var m := (n - 1) as real;
      assert prev.life == pt.life - m * pt.decay;
      assert m * pt.decay + pt.decay == (n as real) * pt.decay;
      assert m * pt.decay <= (n as real) * pt.decay;
    }
  }

  /** `updateDamageIndicators` on one indicator: it loses 0.02 of life (its motion is visual only). */
  function Fade(d: DamageIndicator): DamageIndicator
  {
    d.(life := d.life - 0.02)
  }

  function FadeN(d: DamageIndicator, n: nat): DamageIndicator
  {
    if n == 0 then d else Fade(FadeN(d, n - 1))
  }

  /**
   * A new indicator (life 1) still has life after `n` fades exactly when
   * `n < 50`: the cleanup keeps it for fifty frames.
   */
  lemma {:induction false} IndicatorLifetime(d: DamageIndicator, n: nat)
    requires d.life == 1.0
    ensures FadeN(d, n).life == 1.0 - 0.02 * n as real
    ensures FadeN(d, n).life > 0.0 <==> n < 50
    ensures FadeN(d, n).value == d.value && FadeN(d, n).isPlayer == d.isPlayer && FadeN(d, n).isCrit == d.isCrit
  {
    if n > 0 {
      IndicatorLifetime(d, n - 1);
    }
  }

  /** `updateParticles`: every particle decays, in place. */
  method UpdateParticles(w: World)
    modifies w`particles
    ensures |w.particles| == |old(w.particles)|
    ensures forall j :: 0 <= j < |w.particles| ==> w.particles[j] == Decay(old(w.particles[j]))
  {
    var i := 0;
    while i < |w.particles|
      invariant i <= |w.particles| == |old(w.particles)|
      invariant forall j :: 0 <= j < i ==> w.particles[j] == Decay(old(w.particles[j]))
      invariant forall j :: i <= j < |w.particles| ==> w.particles[j] == old(w.particles[j])
    {
      var pt := w.particles[i];
      var life := pt.life - pt.decay;
      w.particles := w.particles[i := pt.(life := life, marked := if life <= 0.0 then true else pt.marked)];
      i := i + 1;
    }
  }

  /** `updateDamageIndicators`: every indicator fades, in place. */
  method UpdateIndicators(w: World)
    modifies w`indicators
    ensures |w.indicators| == |old(w.indicators)|
    ensures forall j :: 0 <= j < |w.indicators| ==> w.indicators[j] == Fade(old(w.indicators[j]))
  {
    var i := 0;
    while i < |w.indicators|
      invariant i <= |w.indicators| == |old(w.indicators)|
      invariant forall j :: 0 <= j < i ==> w.indicators[j] == Fade(old(w.indicators[j]))
      invariant forall j :: i <= j < |w.indicators| ==> w.indicators[j] == old(w.indicators[j])
    {
      w.indicators := w.indicators[i := w.indicators[i].(life := w.indicators[i].life - 0.02)];
      i := i + 1;
    }
  }

  // ---------------------------------------------------------------------------
  // Hazards

  /** Within 20 units of a canvas edge. */
  predicate AtBorder(px: real, py: real, width: real, height: real)
  {
    px <= 20.0 || px >= width - 20.0 || py <= 20.0 || py >= height - 20.0
  }

  /** What the hazards change: the player's health, the indicators, the screen-shake and the reported events. */
  datatype Sting = Sting(hp: real, indicators: seq<DamageIndicator>, shake: real, events: seq<Event>)

  /**
   * One hazard hit of `dmg`: health drops and a player indicator shows.
   * With `report`, a hit that leaves no health reports game over, as every
   * other hit on the player does.
   */
  function Burn(s: Sting, dmg: real, report: bool, score: int, kills: int): Sting
  {
    Sting(s.hp - dmg, s.indicators + [PlayerHitIndicator(dmg)], s.shake,
          s.events + (if report then GameOverIf(s.hp - dmg, score, kills) else []))
  }

  /** The electric walls strike: on such a map, at the border, on every 30th frame. */
  predicate Shocks(kind: HazardType, px: real, py: real, width: real, height: real, t: int)
  {
    kind == ElectricWalls && AtBorder(px, py, width, height) && t % 30 == 0
  }

  /** A lava pool burns: the player is inside it, on every 20th frame. */
  predicate Scalds(pool: Hazard, px: real, py: real, t: int)
  {
    Near(px, py, pool.x, pool.y, pool.radius) && t % 20 == 0
  }

  /** The electric walls' part: `max(1, 5 - armor)` and five more units of shake. */
  function Shock(s: Sting, kind: HazardType, px: real, py: real, width: real, height: real, t: int,
                 armor: real, report: bool, score: int, kills: int): Sting
  {
    if Shocks(kind, px, py, width, height, t) then
      Burn(s, ArmorDamage(5.0, armor), report, score, kills).(shake := s.shake + 5.0)
    else s
  }

  /** The lava pools' part, pool by pool: `max(1, 2 - armor)` per pool that burns. */
  function Scald(pools: seq<Hazard>, s: Sting, px: real, py: real, t: int,
                 armor: real, report: bool, score: int, kills: int): Sting
    decreases |pools|
  {
    if pools == [] then s
    else
      var r := Scald(pools[..|pools| - 1], s, px, py, t, armor, report, score, kills);
      if Scalds(pools[|pools| - 1], px, py, t) then Burn(r, ArmorDamage(2.0, armor), report, score, kills) else r
  }

  /** How many pools burn this frame. */
  function Burning(pools: seq<Hazard>, px: real, py: real, t: int): nat
    decreases |pools|
  {
    if pools == [] then 0
    else Burning(pools[..|pools| - 1], px, py, t) + (if Scalds(pools[|pools| - 1], px, py, t) then 1 else 0)
  }

  /** `updateHazards` on values: the walls, then the pools in order. */
  function HazardPass(s: Sting, kind: HazardType, pools: seq<Hazard>, px: real, py: real, width: real, height: real,
                      t: int, armor: real, report: bool, score: int, kills: int): Sting
  {
    Scald(pools, Shock(s, kind, px, py, width, height, t, armor, report, score, kills), px, py, t, armor, report, score, kills)
  }

  /** `k` hits of `a` each, added one at a time. */
  function Toll(k: nat, a: real): real
  {
    if k == 0 then 0.0 else Toll(k - 1, a) + a
  }

  /** `k` hits of `a` each take `k * a` in all. */
  lemma {:induction false} TollProduct(k: nat, a: real)
    ensures Toll(k, a) == (k as real) * a
  {
    if k > 0 {
      TollProduct(k - 1, a);
      assert ((k - 1) as real) * a + a == (k as real) * a;
    }
  }

  /** The pools take the player's health down by one hit per burning pool. */
  lemma {:induction false} ScaldHp(pools: seq<Hazard>, s: Sting, px: real, py: real, t: int,
                                   armor: real, report: bool, score: int, kills: int)
    ensures Scald(pools, s, px, py, t, armor, report, score, kills).hp
      == s.hp - Toll(Burning(pools, px, py, t), ArmorDamage(2.0, armor))
  {
    if pools != [] {
      ScaldHp(pools[..|pools| - 1], s, px, py, t, armor, report, score, kills);
    }
  }

  /**
   * The pools' marks: one indicator per burning pool, the shake untouched;
   * the events untouched without `report` or when no pool burns.
   */
  lemma {:induction false} ScaldMarks(pools: seq<Hazard>, s: Sting, px: real, py: real, t: int,
                                      armor: real, report: bool, score: int, kills: int)
    ensures var r := Scald(pools, s, px, py, t, armor, report, score, kills);
      && r.indicators == s.indicators + Repeat(PlayerHitIndicator(ArmorDamage(2.0, armor)), Burning(pools, px, py, t))
      && r.shake == s.shake
      && (!report || Burning(pools, px, py, t) == 0 ==> r.events == s.events)
  {
    if pools != [] {
      ScaldMarks(pools[..|pools| - 1], s, px, py, t, armor, report, score, kills);
    }
  }

  /**
   * The pools' toll: one `max(1, 2 - armor)` and one indicator per burning
   * pool, the shake untouched; without `report` the events are untouched.
   */
  lemma ScaldToll(pools: seq<Hazard>, s: Sting, px: real, py: real, t: int,
                  armor: real, report: bool, score: int, kills: int)
    ensures var r := Scald(pools, s, px, py, t, armor, report, score, kills);
      && r.hp == s.hp - (Burning(pools, px, py, t) as real) * ArmorDamage(2.0, armor)
      && r.indicators == s.indicators + Repeat(PlayerHitIndicator(ArmorDamage(2.0, armor)), Burning(pools, px, py, t))
      && r.shake == s.shake
      && (!report ==> r.events == s.events)
      && (Burning(pools, px, py, t) == 0 ==> r == s)
  {
    ScaldHp(pools, s, px, py, t, armor, report, score, kills);
    TollProduct(Burning(pools, px, py, t), ArmorDamage(2.0, armor));
    ScaldMarks(pools, s, px, py, t, armor, report, score, kills);
  }

  /**
   * No pool burns off the 20-frame beat, whatever the player's position.
   */
  lemma {:induction false} NoBurnOffBeat(pools: seq<Hazard>, px: real, py: real, t: int)
    requires t % 20 != 0
    ensures Burning(pools, px, py, t) == 0
  {
    if pools != [] {
      NoBurnOffBeat(pools[..|pools| - 1], px, py, t);
    }
  }

  /**
   * With `report`, a hazard pass that lowers the player's health to zero or
   * below ends with a game-over report carrying the
   * score and kills.
   */
  lemma {:induction false} FatalHazardReported(pools: seq<Hazard>, s: Sting, px: real, py: real, t: int,
                                               armor: real, score: int, kills: int)
    ensures var r := Scald(pools, s, px, py, t, armor, true, score, kills);
      r.hp < s.hp && r.hp <= 0.0 ==> |r.events| > 0 && r.events[|r.events| - 1] == GameOverReached(score, kills)
  {
    if pools != [] {
      var pre := pools[..|pools| - 1];
      FatalHazardReported(pre, s, px, py, t, armor, score, kills);
      ScaldToll(pre, s, px, py, t, armor, true, score, kills);
    }
  }

  /** The same with the electric walls in front. */
  lemma HazardPassReportsDeath(s: Sting, kind: HazardType, pools: seq<Hazard>, px: real, py: real,
                               width: real, height: real, t: int, armor: real, score: int, kills: int)
    ensures var r := HazardPass(s, kind, pools, px, py, width, height, t, armor, true, score, kills);
      r.hp < s.hp && r.hp <= 0.0 ==> |r.events| > 0 && r.events[|r.events| - 1] == GameOverReached(score, kills)
  {
    var m := Shock(s, kind, px, py, width, height, t, armor, true, score, kills);
    FatalHazardReported(pools, m, px, py, t, armor, score, kills);
    ScaldToll(pools, m, px, py, t, armor, true, score, kills);
    var n := Burning(pools, px, py, t);
    if n > 0 {
      assert (n as real) * ArmorDamage(2.0, armor) >= 1.0;
    }
  }

  /**
   * As written, `updateHazards` never reports game over: a player at 2
   * health, unarmoured, standing in a lava pool on frame 20 (the first
   * frame on which the pools burn), is left at 0 health with no report.
   */
  lemma HazardDeathUnreported()
    ensures var r := HazardPass(Sting(2.0, [], 0.0, []), LavaPools, [Hazard("lava_0", 0.0, 0.0, 80.0, 0.2)],
                                0.0, 0.0, 800.0, 600.0, 20, 0.0, false, 0, 0);
      r.hp == 0.0 && r.events == []
  {
    var pool := Hazard("lava_0", 0.0, 0.0, 80.0, 0.2);
    assert Scalds(pool, 0.0, 0.0, 20);
    assert [pool][..0] == [];
  }

  /**
   * The loop over the lava pools of `updateHazards`, on local copies of the
   * player's health, the indicators and the events.
   */
  method ScaldLoop(pools: seq<Hazard>, px: real, py: real, t: int, armor: real, score: int, kills: int,
                   hp0: real, inds0: seq<DamageIndicator>, evs0: seq<Event>, ghost shake: real)
    returns (hp: real, inds: seq<DamageIndicator>, evs: seq<Event>)
    ensures Sting(hp, inds, shake, evs) == Scald(pools, Sting(hp0, inds0, shake, evs0), px, py, t, armor, true, score, kills)
  {
    ghost var s := Sting(hp0, inds0, shake, evs0);
    hp, inds, evs := hp0, inds0, evs0;
    var i := 0;
    while i < |pools|
      invariant i <= |pools|
      invariant Sting(hp, inds, shake, evs) == Scald(pools[..i], s, px, py, t, armor, true, score, kills)
    {
      assert pools[..i + 1][..i] == pools[..i];
      var pool := pools[i];
      if Near(px, py, pool.x, pool.y, pool.radius) && t % 20 == 0 {
        var dmg := MaxR(1.0, 2.0 - armor);
        hp := hp - dmg;
        inds := inds + [PlayerHitIndicator(dmg)];
        evs := evs + GameOverIf(hp, score, kills);
      }
      i := i + 1;
    }
    assert pools[..|pools|] == pools;
  }

  /** The electric walls' part of `updateHazards`, on local copies. */
  method ShockStep(kind: HazardType, px: real, py: real, width: real, height: real, t: int, armor: real,
                   score: int, kills: int, hp0: real, inds0: seq<DamageIndicator>, shake0: real, evs0: seq<Event>)
    returns (hp: real, inds: seq<DamageIndicator>, shake: real, evs: seq<Event>)
    ensures Sting(hp, inds, shake, evs)
      == Shock(Sting(hp0, inds0, shake0, evs0), kind, px, py, width, height, t, armor, true, score, kills)
  {
    hp, inds, shake, evs := hp0, inds0, shake0, evs0;
    if kind == ElectricWalls {
      if (px <= 20.0 || px >= width - 20.0 || py <= 20.0 || py >= height - 20.0) && t % 30 == 0 {
        var dmg := MaxR(1.0, 5.0 - armor);
        hp := hp - dmg;
        inds := inds + [PlayerHitIndicator(dmg)];
        shake := shake + 5.0;
        evs := evs + GameOverIf(hp, score, kills);
      }
    }
  }

  /**
   * `updateHazards`: the electric walls, then every lava pool in turn. A hit
   * that leaves the player without health reports game over (the source
   * omits this report; see `HazardDeathUnreported`).
   */
  method UpdateHazards(w: World)
    requires w.Valid()
    modifies w.player`hp, w`indicators, w`shake, w`events
    ensures w.Valid()
    ensures var r := HazardPass(Sting(old(w.player.hp), old(w.indicators), old(w.shake), old(w.events)),
                                w.currentMap.hazardType, w.hazards, w.player.x, w.player.y, w.width, w.height,
                                w.totalTime, w.player.armor, true, w.score, w.kills);
      w.player.hp == r.hp && w.indicators == r.indicators && w.shake == r.shake && w.events == r.events
  {
    var p := w.player;
    var hp, inds, shake, evs := ShockStep(w.currentMap.hazardType, p.x, p.y, w.width, w.height, w.totalTime, p.armor,
                                          w.score, w.kills, p.hp, w.indicators, w.shake, w.events);
    ghost var s := Sting(hp, inds, shake, evs);
    hp, inds, evs := ScaldLoop(w.hazards, p.x, p.y, w.totalTime, p.armor, w.score, w.kills, hp, inds, evs, shake);
    ScaldToll(w.hazards, s, p.x, p.y, w.totalTime, p.armor, true, w.score, w.kills);
    assert (Burning(w.hazards, p.x, p.y, w.totalTime) as real) * ArmorDamage(2.0, p.armor) >= 0.0;
    w.Scorch(hp, shake, inds, evs);
  }
}
