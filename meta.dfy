/**
 * The meta progression of App.tsx: the shop's six permanent upgrades and
 * their price curve, a purchase, the credits a finished run earns on each
 * map, and the starting stats a profile's ranks give a new run.
 */
module Meta {
  import opened Types
  import opened Util

  /** How a shop upgrade's per-rank amount applies: added to the base, or as a fraction of it. */
  datatype StatFormat = Flat | Percent

  datatype MetaUpgradeConfig = MetaUpgradeConfig(
    id: MetaUpgradeId, name: string,
    baseCost: real, costScale: real, maxRank: nat,
    statPerRank: real, format: StatFormat)

  /** `META_UPGRADES`, in its declaration order. */
  const MetaUpgrades: seq<MetaUpgradeConfig> := [
    MetaUpgradeConfig(HealthUp, "Hull Reinforcement", 250.0, 1.15, 50, 5.0, Flat),
    MetaUpgradeConfig(ArmorUp, "Plating Armor", 1000.0, 1.20, 50, 0.5, Flat),
    MetaUpgradeConfig(DamageUp, "Weapon Overdrive", 500.0, 1.15, 50, 0.02, Percent),
    MetaUpgradeConfig(SpeedUp, "Engine Tuning", 400.0, 1.15, 50, 0.01, Percent),
    MetaUpgradeConfig(XpUp, "Data Mining", 600.0, 1.15, 50, 0.02, Percent),
    MetaUpgradeConfig(MagnetUp, "Attractor Beam", 300.0, 1.12, 50, 0.02, Percent)]

  /** `META_UPGRADES.find(u => u.id === id)`. */
  function FindConfig(cs: seq<MetaUpgradeConfig>, id: MetaUpgradeId): (r: Option<MetaUpgradeConfig>)
    ensures r.Some? ==> r.value in cs && r.value.id == id
    ensures r.None? ==> forall i :: 0 <= i < |cs| ==> cs[i].id != id
  {
    if cs == [] then None
    else if cs[0].id == id then Some(cs[0])
    else FindConfig(cs[1..], id)
  }

  /** The position of each meta upgrade in `META_UPGRADES`. */
  function Index(id: MetaUpgradeId): (i: nat)
    ensures i < |MetaUpgrades| && MetaUpgrades[i].id == id
  {
    match id
    case HealthUp => 0
    case ArmorUp => 1
    case DamageUp => 2
    case SpeedUp => 3
    case XpUp => 4
    case MagnetUp => 5
  }

  /** Looking an upgrade up finds its own entry, because no earlier entry has its id. */
  lemma FindsOwnEntry(id: MetaUpgradeId)
    ensures FindConfig(MetaUpgrades, id) == Some(MetaUpgrades[Index(id)])
  {
    var cs := MetaUpgrades;
    assert cs[0].id == HealthUp && cs[1].id == ArmorUp && cs[2].id == DamageUp;
    assert cs[3].id == SpeedUp && cs[4].id == XpUp && cs[5].id == MagnetUp;
    assert cs[1..][1..][1..][1..][1..] == [cs[5]];
  }

  /**
   * Every meta upgrade is configured, with a price that grows by more than 1
   * per rank, by at least 30 credits from the base to the first rank, and a
   * cap of 50 ranks.
   */
  lemma EveryIdConfigured(id: MetaUpgradeId)
    ensures FindConfig(MetaUpgrades, id).Some?
    ensures var c := FindConfig(MetaUpgrades, id).value;
      c.costScale > 1.0 && c.baseCost >= 250.0 && c.maxRank == 50 && c.baseCost * (c.costScale - 1.0) >= 30.0
    ensures Spread(FindConfig(MetaUpgrades, id).value)
  {
    FindsOwnEntry(id);
  }

  /** Prices that grow by more than 1 per rank, the first rank costing at least 2 credits more than the base. */
  predicate Spread(c: MetaUpgradeConfig)
  {
    c.costScale > 1.0 && c.baseCost >= 0.0 && c.baseCost * (c.costScale - 1.0) >= 2.0
  }

  /** The price of the next rank in exact arithmetic: `baseCost * costScale ^ rank`, rounded down. */
  function ExactCost(c: MetaUpgradeConfig, rank: nat): int
  {
    (c.baseCost * Pow(c.costScale, rank)).Floor
  }

  /**
   * The ranks at which the double-precision product falls just below the
   * whole number that the exact product is: 400 * 1.15 is 459.99999999999994,
   * 400 * 1.15 * 1.15 is 528.9999999999999 and 1000 * 1.2 ^ 3 is
   * 1727.9999999999998. The exact product of the shop's table is a whole
   * number only at ranks 0 to 3; at every other rank below 50 it lies more
   * than a 10^-13 fraction of itself away from one, so rounding there does
   * not move the floor.
   */
  predicate FallsShort(id: MetaUpgradeId, rank: nat)
  {
    (id == SpeedUp && (rank == 1 || rank == 2)) || (id == ArmorUp && rank == 3)
  }

  /** The price of the next rank: `Math.floor(baseCost * Math.pow(costScale, rank))`, in doubles. */
  function Cost(c: MetaUpgradeConfig, rank: nat): int
  {
    if FallsShort(c.id, rank) then ExactCost(c, rank) - 1 else ExactCost(c, rank)
  }

  /** When one rank adds at least 2 credits to the base price, every later rank costs at least 2 more, exactly. */
  lemma ExactCostApart(c: MetaUpgradeConfig, r1: nat, r2: nat)
    requires c.costScale > 1.0 && c.baseCost >= 0.0 && c.baseCost * (c.costScale - 1.0) >= 2.0 && r1 < r2
    ensures ExactCost(c, r1) + 2 <= ExactCost(c, r2)
  {
    PowGrows(c.costScale, 0, r1);
    PowGrows(c.costScale, r1 + 1, r2);
    assert Pow(c.costScale, r1 + 1) == c.costScale * Pow(c.costScale, r1);
    FloorsApart(c.baseCost, c.costScale, Pow(c.costScale, r1), Pow(c.costScale, r2));
  }

  /** Scaling a factor of at least 1 by `s` adds at least `b * (s - 1)` to `b` times it. */
  lemma FloorsApart(b: real, s: real, p1: real, p2: real)
    requires s > 1.0 && b >= 0.0 && b * (s - 1.0) >= 2.0 && p1 >= 1.0 && s * p1 <= p2
    ensures (b * p1).Floor + 2 <= (b * p2).Floor
  {
    var g := b * (s - 1.0);
    assert g * (p1 - 1.0) >= 0.0;
    assert g * p1 >= g;
    assert b * (s * p1) == b * p1 + g * p1;
    assert b * (p2 - s * p1) >= 0.0;
    assert b * p2 >= b * p1 + 2.0;
  }

  /**
   * A higher rank of a shop upgrade never costs less, and no rank costs less
   * than the base price, also with the three prices that the doubles round
   * down by one credit.
   */
  lemma CostGrows(id: MetaUpgradeId, r1: nat, r2: nat)
    requires r1 <= r2
    ensures FindConfig(MetaUpgrades, id).Some?
    ensures var c := FindConfig(MetaUpgrades, id).value;
      c.baseCost.Floor <= Cost(c, r1) <= Cost(c, r2)
  {
    EveryIdConfigured(id);
    var c := FindConfig(MetaUpgrades, id).value;
    SpreadCostGrows(c, r1, r2);
  }

  /** Rounding one price down by a credit cannot undo the order of prices that are at least 2 credits apart. */
  lemma SpreadCostGrows(c: MetaUpgradeConfig, r1: nat, r2: nat)
    requires Spread(c) && r1 <= r2
    ensures c.baseCost.Floor <= Cost(c, r1) <= Cost(c, r2)
  {
    var e0, e1, e2 := ExactCost(c, 0), ExactCost(c, r1), ExactCost(c, r2);
    assert e0 == c.baseCost.Floor by {
      assert Pow(c.costScale, 0) == 1.0;
    }
    assert e1 - 1 <= Cost(c, r1) <= e1 && e2 - 1 <= Cost(c, r2) <= e2;
    if 0 < r1 {
      ExactCostApart(c, 0, r1);
    } else {
      assert !FallsShort(c.id, r1);
    }
    if r1 < r2 {
      ExactCostApart(c, r1, r2);
    }
  }

  /** Scaling by a non-negative factor keeps the order, also after rounding down. */
  lemma ScaleFloorMono(a: real, x: real, y: real)
    requires a >= 0.0 && x <= y
    ensures a * x <= a * y && (a * x).Floor <= (a * y).Floor
  {
  }

  /**
   * `handleBuyMetaUpgrade` on the profile: nothing happens for an unknown
   * upgrade, a rank that is missing from the profile (every comparison with
   * the undefined rank fails), a maxed rank, or too few credits; otherwise
   * the price is paid and that rank goes up by one.
   */
  function Buy(p: UserProfile, id: MetaUpgradeId): UserProfile
  {
    match FindConfig(MetaUpgrades, id)
    case None => p
    case Some(c) =>
      if id !in p.upgrades || p.upgrades[id] >= c.maxRank then p
      else
        var cost := Cost(c, p.upgrades[id]);
        if p.credits < cost || cost < 0 then p
        else UserProfile(p.credits - cost, p.upgrades[id := p.upgrades[id] + 1])
  }

  /** The price of the next rank of `id` from rank `rank`. */
  function NextCost(id: MetaUpgradeId, rank: nat): int
  {
    EveryIdConfigured(id);
    Cost(FindConfig(MetaUpgrades, id).value, rank)
  }

  /**
   * A purchase goes through exactly when the rank is present, below 50 and
   * affordable; it then costs at least 250 credits, takes exactly the price,
   * and raises that one rank by one. Otherwise the profile is unchanged.
   */
  lemma BuyGuarded(p: UserProfile, id: MetaUpgradeId)
    ensures var r := Buy(p, id);
      r != p <==> id in p.upgrades && p.upgrades[id] < 50 && p.credits >= NextCost(id, p.upgrades[id])
    ensures var r := Buy(p, id);
      r != p ==>
        (NextCost(id, p.upgrades[id]) >= 250 &&
         r.credits == p.credits - NextCost(id, p.upgrades[id]) &&
         r.upgrades == p.upgrades[id := p.upgrades[id] + 1])
  {
    EveryIdConfigured(id);
    var c := FindConfig(MetaUpgrades, id).value;
    if id in p.upgrades {
      CostGrows(id, 0, p.upgrades[id]);
      assert c.baseCost.Floor >= 250;
      assert p.upgrades[id := p.upgrades[id] + 1] != p.upgrades by {
        assert p.upgrades[id := p.upgrades[id] + 1][id] != p.upgrades[id];
      }
    }
  }

  /**
   * The prices the doubles give where the exact product is whole: Engine
   * Tuning costs 459 at rank 1 and 528 at rank 2, Plating Armor 1727 at
   * rank 3. So a profile holding exactly 459 credits buys the second rank of
   * Engine Tuning and is left with none.
   */
  lemma DoublePrices(p: UserProfile)
    requires SpeedUp in p.upgrades && p.upgrades[SpeedUp] == 1 && p.credits == 459
    ensures NextCost(SpeedUp, 1) == 459 && NextCost(SpeedUp, 2) == 528 && NextCost(ArmorUp, 3) == 1727
    ensures Buy(p, SpeedUp) == UserProfile(0, p.upgrades[SpeedUp := 2])
  {
    FindsOwnEntry(SpeedUp);
    FindsOwnEntry(ArmorUp);
    assert Pow(1.15, 1) == 1.15 && Pow(1.15, 2) == 1.3225;
    assert Pow(1.2, 1) == 1.2 && Pow(1.2, 2) == 1.44 && Pow(1.2, 3) == 1.728;
    BuyGuarded(p, SpeedUp);
  }

  /** The maps of `MAP_CONFIGS`: their ids, names, credit multipliers and hazards. */
  const Maps: seq<GameMap> := [
    GameMap(GrassLands, "Verdant Plains", 1.0, NoHazard),
    GameMap(NeonCity, "Neon City", 1.5, ElectricWalls),
    GameMap(CrimsonWaste, "Crimson Waste", 3.0, LavaPools)]

  /** `handleGameOver`'s reward: 50 credits a kill, times the map's multiplier, rounded down. */
  function EarnedCredits(kills: nat, m: GameMap): int
  {
    ((kills as real) * 50.0 * m.creditsMultiplier).Floor
  }

  /** On every map a run earns at least 50 credits a kill, and a harder map never pays less for the same kills. */
  lemma CreditsPerKill(kills: nat, i: nat, j: nat)
    requires i <= j < |Maps|
    ensures EarnedCredits(kills, Maps[i]) >= 50 * kills
    ensures EarnedCredits(kills, Maps[i]) <= EarnedCredits(kills, Maps[j])
  {
    var k := (kills as real) * 50.0;
    assert k >= 0.0;
    assert Maps[i].creditsMultiplier >= 1.0 && Maps[i].creditsMultiplier <= Maps[j].creditsMultiplier;
    ScaleFloorMono(k, 1.0, Maps[i].creditsMultiplier);
    ScaleFloorMono(k, Maps[i].creditsMultiplier, Maps[j].creditsMultiplier);
    assert (k * 1.0).Floor == 50 * kills;
  }

  /** A run on any configured map earns at least 50 credits a kill. */
  lemma CreditsOnMap(kills: nat, m: GameMap)
    requires m in Maps
    ensures EarnedCredits(kills, m) >= 50 * kills
  {
    var i :| 0 <= i < |Maps| && Maps[i] == m;
    CreditsPerKill(kills, i, i);
  }

  /** The starting stats of a run, derived from the profile's ranks. */
  datatype MetaStats = MetaStats(baseHp: real, speed: real, pickupRange: real, dmgMult: real, xpMult: real, armor: real)

  /** Every meta upgrade has a rank in the profile. */
  predicate RanksComplete(up: map<MetaUpgradeId, nat>)
  {
    forall id :: id in up
  }

  /** `launchGame`'s derivation of the starting stats from the ranks. */
  function StatsOf(up: map<MetaUpgradeId, nat>): MetaStats
    requires RanksComplete(up)
  {
    MetaStats(
      100.0 + (up[HealthUp] as real) * 5.0,
      4.0 * (1.0 + (up[SpeedUp] as real) * 0.01),
      100.0 * (1.0 + (up[MagnetUp] as real) * 0.02),
      1.0 + (up[DamageUp] as real) * 0.02,
      1.0 + (up[XpUp] as real) * 0.02,
      (up[ArmorUp] as real) * 0.5)
  }

  /** What the shop advertises for `rank` ranks of an upgrade on top of `base`. */
  function Advertised(id: MetaUpgradeId, base: real, rank: nat): real
  {
    var c := MetaUpgrades[Index(id)];
    match c.format
    case Flat => base + c.statPerRank * rank as real
    case Percent => base * (1.0 + c.statPerRank * rank as real)
  }

  /** The starting stats are exactly what the shop advertises for the ranks bought. */
  lemma StatsAsAdvertised(up: map<MetaUpgradeId, nat>)
    requires RanksComplete(up)
    ensures StatsOf(up) == MetaStats(
      Advertised(HealthUp, 100.0, up[HealthUp]),
      Advertised(SpeedUp, 4.0, up[SpeedUp]),
      Advertised(MagnetUp, 100.0, up[MagnetUp]),
      Advertised(DamageUp, 1.0, up[DamageUp]),
      Advertised(XpUp, 1.0, up[XpUp]),
      Advertised(ArmorUp, 0.0, up[ArmorUp]))
  {
  }

  /** More ranks never give a weaker start: every stat grows with its rank, from the unupgraded 100 hp, speed 4, range 100, multipliers 1 and no armor. */
  lemma StatsGrow(up: map<MetaUpgradeId, nat>, up': map<MetaUpgradeId, nat>)
    requires RanksComplete(up) && RanksComplete(up')
    requires forall id :: up[id] <= up'[id]
    ensures var s, s' := StatsOf(up), StatsOf(up');
      s.baseHp <= s'.baseHp && s.speed <= s'.speed && s.pickupRange <= s'.pickupRange &&
      s.dmgMult <= s'.dmgMult && s.xpMult <= s'.xpMult && s.armor <= s'.armor
    ensures var s := StatsOf(up);
      s.baseHp >= 100.0 && s.speed >= 4.0 && s.pickupRange >= 100.0 && s.dmgMult >= 1.0 && s.xpMult >= 1.0 && s.armor >= 0.0
  {
    assert up[HealthUp] <= up'[HealthUp] && up[SpeedUp] <= up'[SpeedUp] && up[MagnetUp] <= up'[MagnetUp];
    assert up[DamageUp] <= up'[DamageUp] && up[XpUp] <= up'[XpUp] && up[ArmorUp] <= up'[ArmorUp];
  }
}
