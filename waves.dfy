/**
 * Wave director and spawner rules: the time-keyed spawn table, the spawn
 * schedule (interval, boss cadence, type roll) and the per-kind stat table
 * that scales enemies with difficulty, wave and map.
 */
module Waves {
  import opened Types
  import opened Util

  datatype Weights = Weights(basic: int, rusher: int, swarmer: int, goliath: int)

  datatype WaveConfig = WaveConfig(spawnInterval: int, weights: Weights)

  function WeightSum(w: Weights): int { w.basic + w.rusher + w.swarmer + w.goliath }

  /** Boss phase: after the first minute, the first 30 s of every 180 s cycle. */
  predicate IsBossPhase(totalSeconds: nat) { totalSeconds > 60 && totalSeconds % 180 < 30 }

  /** Surge phase: after the first minute, the 20 s that follow a boss phase. */
  predicate IsSurgePhase(totalSeconds: nat) { totalSeconds > 60 && 30 <= totalSeconds % 180 < 50 }

  /** The late-game interval for minute m >= 3: it shrinks by 5 per minute down to 10. */
  function LateInterval(minutes: int): int
  {
    MaxI(10, 25 - MinI(20, (minutes - 3) * 5))
  }

  /**
   * The spawn table for an elapsed time of `minutes`:`seconds`. The weights are
   * percentages that always sum to 100; the interval lies between 10 and 80 frames.
   */
  function GetWaveConfig(minutes: nat, seconds: nat): (c: WaveConfig)
    ensures WeightSum(c.weights) == 100
    ensures c.weights.basic >= 0 && c.weights.rusher >= 0 && c.weights.swarmer >= 0 && c.weights.goliath >= 0
    ensures 10 <= c.spawnInterval <= 80
    ensures IsBossPhase(minutes * 60 + seconds) ==> c == WaveConfig(80, Weights(0, 0, 100, 0))
    ensures IsSurgePhase(minutes * 60 + seconds) ==> c == WaveConfig(12, Weights(40, 30, 20, 10))
  {
    var totalSeconds := minutes * 60 + seconds;
    if IsBossPhase(totalSeconds) then WaveConfig(80, Weights(0, 0, 100, 0))
    else if IsSurgePhase(totalSeconds) then WaveConfig(12, Weights(40, 30, 20, 10))
    else if minutes == 0 then WaveConfig(50, Weights(80, 0, 20, 0))
    else if minutes == 1 then WaveConfig(40, Weights(50, 20, 30, 0))
    else if minutes == 2 then WaveConfig(30, Weights(40, 20, 20, 20))
    else WaveConfig(LateInterval(minutes), Weights(30, 30, 30, 10))
  }

  /** Outside the boss and surge phases the interval depends on the minute only, and never grows. */
  lemma WaveIntervalByMinute(minutes: nat, seconds: nat)
    requires !IsBossPhase(minutes * 60 + seconds) && !IsSurgePhase(minutes * 60 + seconds)
    ensures GetWaveConfig(minutes, seconds).spawnInterval ==
      (if minutes == 0 then 50 else if minutes == 1 then 40 else if minutes == 2 then 30 else LateInterval(minutes))
    ensures minutes >= 3 ==> 10 <= GetWaveConfig(minutes, seconds).spawnInterval <= 25
  {
  }

  /** The late-game interval never increases from one minute to the next. */
  lemma {:induction false} LateIntervalNonIncreasing(m: int, n: int)
    requires 3 <= m <= n
    ensures LateInterval(n) <= LateInterval(m) <= 25
    ensures n >= 6 ==> LateInterval(n) == 10
  {
  }

  /** The spawn interval actually used: the hardest map spawns 30% faster, never below 2 frames. */
  function SpawnInterval(mapId: MapId, waveInterval: int): (r: int)
    requires waveInterval >= 10
    ensures r >= 2 && r <= waveInterval
    ensures mapId != CrimsonWaste ==> r == waveInterval
    ensures mapId == CrimsonWaste ==> r as real <= (waveInterval as real) * 0.7 < r as real + 1.0
  {
    if mapId == CrimsonWaste then MaxI(2, ((waveInterval as real) * 0.7).Floor) else waveInterval
  }

  /** A boss spawns on every positive multiple of 10800 frames (three minutes). */
  predicate IsBossFrame(totalTime: int) { totalTime > 0 && totalTime % 10800 == 0 }

  /** Number of boss frames among frames 1..n. */
  function BossFramesUpTo(n: nat): nat
  {
    if n == 0 then 0 else BossFramesUpTo(n - 1) + (if IsBossFrame(n) then 1 else 0)
  }

  /** Boss cadence: the first n frames hold exactly n / 10800 boss spawns. */
  lemma {:induction false} BossCadence(n: nat)
    ensures BossFramesUpTo(n) == n / 10800
  {
    if n > 0 {
      BossCadence(n - 1);
      if n % 10800 == 0 {
        assert n / 10800 == (n - 1) / 10800 + 1;
      } else {
        assert n / 10800 == (n - 1) / 10800;
      }
    }
  }

  /** Two boss waves in 21600 frames, at frames 10800 and 21600 only. */
  lemma BossCadenceTwoWaves()
    ensures BossFramesUpTo(21600) == 2
    ensures forall t :: 0 < t <= 21600 && IsBossFrame(t) ==> t == 10800 || t == 21600
  {
    BossCadence(21600);
  }

  /** The kind picked by a roll in [0, 100): cumulative thresholds swarmer, rusher, goliath, else basic. */
  function PickKind(w: Weights, roll: real): EnemyKind
  {
    if roll < w.swarmer as real then Swarmer
    else if roll < (w.swarmer + w.rusher) as real then Rusher
    else if roll < (w.swarmer + w.rusher + w.goliath) as real then Goliath
    else Basic
  }

  /** Where each kind's band of rolls starts. */
  function BandStart(w: Weights, k: EnemyKind): int
  {
    match k
    case Swarmer => 0
    case Rusher => w.swarmer
    case Goliath => w.swarmer + w.rusher
    case Basic => w.swarmer + w.rusher + w.goliath
    case Boss => 100
  }

  function Weight(w: Weights, k: EnemyKind): int
  {
    match k
    case Swarmer => w.swarmer
    case Rusher => w.rusher
    case Goliath => w.goliath
    case Basic => w.basic
    case Boss => 0
  }

  /**
   * With non-negative weights summing to 100, each kind is picked exactly on a
   * band of rolls as wide as its weight, so the weights are the percentages.
   */
  lemma PickKindBands(w: Weights, roll: real, k: EnemyKind)
    requires w.basic >= 0 && w.rusher >= 0 && w.swarmer >= 0 && w.goliath >= 0 && WeightSum(w) == 100
    requires 0.0 <= roll < 100.0
    ensures PickKind(w, roll) == k <==>
      (BandStart(w, k) as real <= roll < (BandStart(w, k) + Weight(w, k)) as real)
  {
  }

  /** The kinds one regular spawn adds, in order: a swarmer roll brings two more swarmers. */
  function SpawnedKinds(k: EnemyKind): (r: seq<EnemyKind>)
    ensures |r| == SpawnCount(k) && forall i :: 0 <= i < |r| ==> r[i] == k
  {
    if k == Swarmer then [Swarmer, Swarmer, Swarmer] else [k]
  }

  /** Number of enemies one regular spawn adds: a swarmer roll brings two companions. */
  function SpawnCount(k: EnemyKind): (n: int)
    ensures n == 1 || n == 3
    ensures n == 3 <==> k == Swarmer
  {
    if k == Swarmer then 3 else 1
  }

  /** Per-map multipliers (hp, damage, speed). */
  datatype MapMods = MapMods(hp: real, dmg: real, speed: real)

  function MapModifiers(id: MapId): MapMods
  {
    if id == Void then MapMods(0.8, 0.6, 0.9)
    else if id == CrimsonWaste then MapMods(1.4, 1.5, 1.15)
    else MapMods(1.1, 1.0, 1.0)
  }

  /** Wave power grows by 0.2 per elapsed minute (3600 frames). */
  function WavePower(totalTime: int): real
  {
    1.0 + ((totalTime / 3600) as real) * 0.2
  }

  /** The spawn-time stats of an enemy; `maxHp` is always equal to `hp`. */
  datatype Stats = Stats(hp: real, speed: real, radius: real, damage: real, value: real, knockbackResist: real)

  /**
   * The stat table: base hp, speed, radius, damage, XP value and knockback
   * resistance per kind, scaled by difficulty, wave power and the map.
   */
  function SpawnStats(k: EnemyKind, difficultyMult: real, speedMult: real, totalTime: int, mapId: MapId, xpMult: real): (s: Stats)
    requires difficultyMult > 0.0 && totalTime >= 0 && xpMult >= 0.0
    ensures s.hp > 0.0 && s.damage >= 0.0 && s.value >= 0.0 && s.radius > 0.0
    ensures 0.0 <= s.knockbackResist <= 1.0
    ensures k == Boss ==> s.radius == 45.0 && s.knockbackResist == 0.95
    ensures (k == Goliath || k == Rusher) ==> s.knockbackResist == 0.9
  {
    var m := MapModifiers(mapId);
    var wavePower := WavePower(totalTime);
    var hpMult := difficultyMult * wavePower * m.hp;
    var dmgMult := wavePower * m.dmg;
    match k
    case Boss => Stats(5000.0 * hpMult, 1.0 * speedMult * m.speed, 45.0, 50.0 * dmgMult, 2000.0 * xpMult, 0.95)
    case Rusher => Stats(8.0 * hpMult, 6.0 * speedMult * m.speed, 15.0, 15.0 * dmgMult, 25.0 * xpMult, 0.9)
    case Goliath => Stats(80.0 * hpMult, 0.8 * speedMult * m.speed, 20.0, 30.0 * dmgMult, 100.0 * xpMult, 0.9)
    case Swarmer => Stats(4.0 * hpMult, 3.0 * speedMult * m.speed, 6.0, 5.0 * dmgMult, 2.0 * xpMult, 0.0)
    case Basic => Stats(15.0 * hpMult, 2.0 * speedMult * m.speed, 16.0, 10.0 * dmgMult, 10.0 * xpMult, 0.0)
  }

  /**
   * The table before scaling: each kind's health, speed, radius, damage, XP
   * value and knockback resistance at difficulty 1, wave power 1, map
   * modifiers 1 and no XP bonus.
   */
  function BaseStats(k: EnemyKind): Stats
  {
    match k
    case Boss => Stats(5000.0, 1.0, 45.0, 50.0, 2000.0, 0.95)
    case Rusher => Stats(8.0, 6.0, 15.0, 15.0, 25.0, 0.9)
    case Goliath => Stats(80.0, 0.8, 20.0, 30.0, 100.0, 0.9)
    case Swarmer => Stats(4.0, 3.0, 6.0, 5.0, 2.0, 0.0)
    case Basic => Stats(15.0, 2.0, 16.0, 10.0, 10.0, 0.0)
  }

  /** Health multiplier of a spawn: difficulty times wave power times the map's health factor. */
  function HpMult(difficultyMult: real, totalTime: int, mapId: MapId): real
  {
    difficultyMult * WavePower(totalTime) * MapModifiers(mapId).hp
  }

  /** Damage multiplier of a spawn: wave power times the map's damage factor. */
  function DmgMult(totalTime: int, mapId: MapId): real
  {
    WavePower(totalTime) * MapModifiers(mapId).dmg
  }

  /** A table row scaled: health, damage, speed and XP value by their factors. */
  function Scale(b: Stats, hp: real, dmg: real, speed: real, xp: real): Stats
  {
    b.(hp := b.hp * hp, damage := b.damage * dmg, speed := b.speed * speed, value := b.value * xp)
  }

  /**
   * The spawn stats are the table scaled: health by difficulty, wave power
   * and the map's health factor; damage by wave power and the map's damage
   * factor; speed by the speed multiplier and the map's speed factor; the XP
   * value by the XP multiplier; radius and knockback resistance as listed.
   */
  lemma SpawnStatsScaled(k: EnemyKind, difficultyMult: real, speedMult: real, totalTime: int, mapId: MapId, xpMult: real)
    requires difficultyMult > 0.0 && totalTime >= 0 && xpMult >= 0.0
    ensures SpawnStats(k, difficultyMult, speedMult, totalTime, mapId, xpMult)
      == Scale(BaseStats(k), HpMult(difficultyMult, totalTime, mapId), DmgMult(totalTime, mapId),
               speedMult * MapModifiers(mapId).speed, xpMult)
  {
  }

  /** Wave power starts at 1 and never falls as time goes by. */
  lemma WavePowerGrows(t1: int, t2: int)
    requires 0 <= t1 <= t2
    ensures 1.0 <= WavePower(t1) <= WavePower(t2)
  {
    assert t1 / 3600 <= t2 / 3600;
  }

  /** The health multiplier grows with difficulty and with time; the damage multiplier with time. */
  lemma MultsGrow(d1: real, d2: real, t1: int, t2: int, mapId: MapId)
    requires 0.0 < d1 <= d2 && 0 <= t1 <= t2
    ensures HpMult(d1, t1, mapId) <= HpMult(d2, t2, mapId)
    ensures DmgMult(t1, mapId) <= DmgMult(t2, mapId)
  {
    WavePowerGrows(t1, t2);
    ModifiersPositive(mapId);
    ProductGrows(d1, d2, WavePower(t1), WavePower(t2), MapModifiers(mapId).hp);
    ScaleMono(MapModifiers(mapId).dmg, WavePower(t1), WavePower(t2));
  }

  /** Every map scales health and damage by a positive factor. */
  lemma ModifiersPositive(id: MapId)
    ensures MapModifiers(id).hp > 0.0 && MapModifiers(id).dmg > 0.0
  {
  }

  /** A product of three positive factors grows with the first two. */
  lemma ProductGrows(d1: real, d2: real, w1: real, w2: real, m: real)
    requires 0.0 < d1 <= d2 && 0.0 < w1 <= w2 && m > 0.0
    ensures d1 * w1 * m <= d2 * w2 * m
  {
    ScaleMono(w1, d1, d2);
    ScaleMono(d2, w1, w2);
    assert d1 * w1 <= d2 * w2;
    ScaleMono(m, d1 * w1, d2 * w2);
  }

  /** A higher difficulty multiplier raises the health of a spawn and changes nothing else. */
  lemma HarderIsTougher(k: EnemyKind, d1: real, d2: real, speedMult: real, totalTime: int, mapId: MapId, xpMult: real)
    requires 0.0 < d1 <= d2 && totalTime >= 0 && xpMult >= 0.0
    ensures var s1, s2 := SpawnStats(k, d1, speedMult, totalTime, mapId, xpMult), SpawnStats(k, d2, speedMult, totalTime, mapId, xpMult);
      s1.hp <= s2.hp && s2 == s1.(hp := s2.hp)
  {
    SpawnStatsScaled(k, d1, speedMult, totalTime, mapId, xpMult);
    SpawnStatsScaled(k, d2, speedMult, totalTime, mapId, xpMult);
    MultsGrow(d1, d2, totalTime, totalTime, mapId);
    ScaleMono(BaseStats(k).hp, HpMult(d1, totalTime, mapId), HpMult(d2, totalTime, mapId));
  }

  /** A later spawn is at least as strong: health and damage never fall as the waves go by. */
  lemma LaterIsStronger(k: EnemyKind, d: real, speedMult: real, t1: int, t2: int, mapId: MapId, xpMult: real)
    requires d > 0.0 && 0 <= t1 <= t2 && xpMult >= 0.0
    ensures var s1, s2 := SpawnStats(k, d, speedMult, t1, mapId, xpMult), SpawnStats(k, d, speedMult, t2, mapId, xpMult);
      s1.hp <= s2.hp && s1.damage <= s2.damage && s2 == s1.(hp := s2.hp, damage := s2.damage)
  {
    SpawnStatsScaled(k, d, speedMult, t1, mapId, xpMult);
    SpawnStatsScaled(k, d, speedMult, t2, mapId, xpMult);
    MultsGrow(d, d, t1, t2, mapId);
    ScaleMono(BaseStats(k).hp, HpMult(d, t1, mapId), HpMult(d, t2, mapId));
    ScaleMono(BaseStats(k).damage, DmgMult(t1, mapId), DmgMult(t2, mapId));
  }

  /** The XP multiplier of regular spawns: +10% per elapsed minute. */
  function SpawnXpMult(minutes: int): real { 1.0 + (minutes as real) * 0.1 }

  /**
   * The four random draws of one spawn, each in [0, 1): the edge, the position
   * along it, and (for swarmers) a jitter on each axis.
   */
  datatype SpawnDraw = SpawnDraw(edge: real, along: real, jitterX: real, jitterY: real)

  lemma AlongBounds(a: real, len: real)
    requires 0.0 <= a < 1.0 && len >= 0.0
    ensures 0.0 <= a * len <= len
  {
    assert (1.0 - a) * len >= 0.0;
  }

  /** A point on the ring 50 px outside a w by h canvas: on one of its four sides. */
  predicate OnSpawnRing(x: real, y: real, w: real, h: real)
  {
    || (y == -50.0 && 0.0 <= x <= w)
    || (x == w + 50.0 && 0.0 <= y <= h)
    || (y == h + 50.0 && 0.0 <= x <= w)
    || (x == -50.0 && 0.0 <= y <= h)
  }

  /** Spawn point 50 px outside the chosen edge (top, right, bottom, left). */
  function SpawnPoint(d: SpawnDraw, w: real, h: real): (p: (real, real))
    requires 0.0 <= d.edge < 1.0 && 0.0 <= d.along < 1.0 && w >= 0.0 && h >= 0.0
    ensures OnSpawnRing(p.0, p.1, w, h)
    ensures (d.edge * 4.0).Floor == 0 ==> p.1 == -50.0
    ensures (d.edge * 4.0).Floor == 1 ==> p.0 == w + 50.0
    ensures (d.edge * 4.0).Floor == 2 ==> p.1 == h + 50.0
    ensures (d.edge * 4.0).Floor == 3 ==> p.0 == -50.0
  {
    var edge := (d.edge * 4.0).Floor;
    assert 0.0 <= d.along * w <= w && 0.0 <= d.along * h <= h by { AlongBounds(d.along, w); AlongBounds(d.along, h); }
    assert 0 <= edge <= 3;
    if edge == 0 then (d.along * w, -50.0)
    else if edge == 1 then (w + 50.0, d.along * h)
    else if edge == 2 then (d.along * w, h + 50.0)
    else (-50.0, d.along * h)
  }
}
