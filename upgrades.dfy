/**
 * The level-up progression of App.tsx: the starter weapons, the upgrade pool
 * with each weapon's rank table, what applying an upgrade does to the
 * player's build, and the offer of at most three upgrades on a level-up.
 */
module Upgrades {
  import opened Types
  import opened Util

  /** The upgrades of the pool (`atk_spd`, `dmg_up`, `speed`, `health`, `range`, `ability_cdr`, the six weapons, the two abilities). */
  datatype UpgradeId =
    | RapidFire | HighCaliber | Overclock | NanoRepair | Magnetism | FluxCapacitor
    | RuneBlade | VoidShotgun | GravitonOrbs | PlasmaBoomerang | InfernoCocktail | TeslaCoil
    | TechShield | VoidNova

  /** The pool in its declaration order. */
  const Pool: seq<UpgradeId> := [
    RapidFire, HighCaliber, Overclock, NanoRepair, Magnetism, FluxCapacitor,
    RuneBlade, VoidShotgun, GravitonOrbs, PlasmaBoomerang, InfernoCocktail, TeslaCoil,
    TechShield, VoidNova]

  /** How many times an upgrade can be taken in one run. */
  function MaxRank(u: UpgradeId): nat
  {
    match u
    case NanoRepair => 10
    case Magnetism | FluxCapacitor => 3
    case TechShield | VoidNova => 1
    case _ => 5
  }

  /** The weapon a weapon upgrade unlocks or improves; none for the stat and ability upgrades. */
  function WeaponOf(u: UpgradeId): Option<WeaponType>
  {
    match u
    case RuneBlade => Some(Sword)
    case VoidShotgun => Some(Shotgun)
    case GravitonOrbs => Some(Orbital)
    case PlasmaBoomerang => Some(Boomerang)
    case InfernoCocktail => Some(Molotov)
    case TeslaCoil => Some(Lightning)
    case _ => None
  }

  /** An upgrade's position in the pool's declaration order. */
  function Ordinal(u: UpgradeId): nat
  {
    match u
    case RapidFire => 0
    case HighCaliber => 1
    case Overclock => 2
    case NanoRepair => 3
    case Magnetism => 4
    case FluxCapacitor => 5
    case RuneBlade => 6
    case VoidShotgun => 7
    case GravitonOrbs => 8
    case PlasmaBoomerang => 9
    case InfernoCocktail => 10
    case TeslaCoil => 11
    case TechShield => 12
    case VoidNova => 13
  }

  /** Every upgrade is in the pool exactly once. */
  lemma PoolComplete()
    ensures NoDup(Pool) && forall u :: u in Pool
  {
    forall a, b | 0 <= a < b < |Pool| ensures Pool[a] != Pool[b] {
      OrdinalInPool(a);
      OrdinalInPool(b);
    }
    forall u ensures u in Pool {
      assert Pool[Ordinal(u)] == u;
    }
  }

  lemma OrdinalInPool(i: nat)
    requires i < |Pool|
    ensures Ordinal(Pool[i]) == i
  {
    if i == 0 {
      assert Pool[0] == RapidFire;
    } else if i == 1 {
      assert Pool[1] == HighCaliber;
    } else if i == 2 {
      assert Pool[2] == Overclock;
    } else if i == 3 {
      assert Pool[3] == NanoRepair;
    } else if i == 4 {
      assert Pool[4] == Magnetism;
    } else if i == 5 {
      assert Pool[5] == FluxCapacitor;
    } else if i == 6 {
      assert Pool[6] == RuneBlade;
    } else if i == 7 {
      assert Pool[7] == VoidShotgun;
    } else if i == 8 {
      assert Pool[8] == GravitonOrbs;
    } else if i == 9 {
      assert Pool[9] == PlasmaBoomerang;
    } else if i == 10 {
      assert Pool[10] == InfernoCocktail;
    } else if i == 11 {
      assert Pool[11] == TeslaCoil;
    } else if i == 12 {
      assert Pool[12] == TechShield;
    }
  }

  /** No two weapon upgrades share a weapon, and none improves the pistol. */
  lemma WeaponsOfPool()
    ensures forall u, v :: WeaponOf(u).Some? && WeaponOf(u) == WeaponOf(v) ==> u == v
    ensures forall u :: WeaponOf(u) != Some(Pistol)
  {
  }

  /** `upgradeCounts[id] || 0`. */
  function CountOf(counts: map<UpgradeId, nat>, u: UpgradeId): nat
  {
    if u in counts then counts[u] else 0
  }

  /** `getStarterWeapon`: the sword, the shotgun and the boomerang have their own starter; everything else gets the pistol. */
  function StarterWeapon(t: WeaponType): (w: Weapon)
    ensures WeaponOk(w) && w.rank == 1 && w.timer == 0.0 && w.active
    ensures w.kind == (if t == Sword || t == Shotgun || t == Boomerang then t else Pistol)
  {
    match t
    case Sword => Weapon("sword_starter", Sword, "Rune Blade", 1, 40.0, 0.0, 30.0, 1, 0.0, 15, true)
    case Shotgun => Weapon("shotgun_starter", Shotgun, "Void Shotgun", 1, 55.0, 0.0, 12.0, 3, 12.0, 25, true)
    case Boomerang => Weapon("boomerang_starter", Boomerang, "Plasma Boomerang", 1, 150.0, 0.0, 20.0, 1, 12.0, 120, true)
    case _ => Weapon("pistol_starter", Pistol, "Pulse Pistol", 1, 25.0, 0.0, 15.0, 1, 10.0, 60, true)
  }

  /**
   * The rank-1 weapon a weapon upgrade unlocks, scaled by the damage and
   * cooldown modifiers the player has accumulated. `now` stands for the
   * clock reading that the orbs, the molotov and the coil put in their ids.
   */
  function Unlocked(k: WeaponType, dm: real, cm: real, now: string): (w: Weapon)
    requires k != Pistol
    ensures w.kind == k && w.rank == 1 && w.timer == 0.0
    ensures dm >= 0.0 ==> WeaponOk(w)
  {
    if k == Orbital then Weapon("orbital_" + now, Orbital, "Orbs", 1, 180.0 * cm, 0.0, 8.0 * dm, 2, 0.0, 99999, true)
    else if k == Molotov then Weapon("molotov_" + now, Molotov, "Molotov", 1, 120.0 * cm, 0.0, 5.0 * dm, 1, 8.0, 40, true)
    else if k == Lightning then Weapon("lightning_" + now, Lightning, "Tesla", 1, 45.0 * cm, 0.0, 30.0 * dm, 2, 0.0, 0, true)
    else
      var s := StarterWeapon(k);
      s.(damage := s.damage * dm, cooldown := s.cooldown * cm)
  }

  /** One rank more for an owned weapon, following that weapon's rank table. */
  function Upgraded(w: Weapon): (r: Weapon)
    requires w.kind != Pistol
    ensures r.rank == w.rank + 1 && r.kind == w.kind && r.id == w.id && r.timer == w.timer
    ensures WeaponOk(w) ==> WeaponOk(r)
  {
    var n := w.(rank := w.rank + 1);
    if w.kind == Sword then
      n.(damage := w.damage * 1.3, cooldown := MaxR(10.0, w.cooldown * 0.9))
    else if w.kind == Shotgun then
      n.(damage := w.damage * 1.2, cooldown := MaxR(10.0, w.cooldown - 5.0),
         projectileCount := w.projectileCount + 1 + (if n.rank == 5 then 2 else 0))
    else if w.kind == Orbital then
      n.(damage := w.damage + 3.0, projectileCount := w.projectileCount + 1)
    else if w.kind == Boomerang then
      n.(damage := w.damage + 5.0, cooldown := MaxR(30.0, w.cooldown - 20.0),
         projectileCount := if n.rank == 5 then 2 else w.projectileCount)
    else if w.kind == Molotov then
      n.(damage := w.damage + 2.0, cooldown := w.cooldown - 10.0)
    else if n.rank == 2 || n.rank == 4 then n.(damage := w.damage * 1.5)
    else if n.rank == 3 then n.(projectileCount := 3)
    else if n.rank == 5 then n.(projectileCount := 4)
    else n
  }

  /** `weapons.find(w => w.type === k)`: the index of the first weapon of kind `k`, if any. */
  function FindKind(ws: seq<Weapon>, k: WeaponType): (r: Option<nat>)
    ensures r.Some? ==> r.value < |ws| && ws[r.value].kind == k
    ensures r.Some? ==> forall j :: 0 <= j < r.value ==> ws[j].kind != k
    ensures r.None? ==> forall j :: 0 <= j < |ws| ==> ws[j].kind != k
  {
    if ws == [] then None
    else if ws[0].kind == k then Some(0)
    else match FindKind(ws[1..], k)
      case None => None
      case Some(i) => Some(i + 1)
  }

  /** A weapon upgrade: the owned weapon of kind `k` is upgraded in place, or a rank-1 one is appended. */
  function WeaponsAfter(ws: seq<Weapon>, k: WeaponType, dm: real, cm: real, now: string): seq<Weapon>
    requires k != Pistol
  {
    match FindKind(ws, k)
    case Some(i) => ws[i := Upgraded(ws[i])]
    case None => ws + [Unlocked(k, dm, cm, now)]
  }

  /** No two weapons of the same kind. */
  ghost predicate KindsDistinct(ws: seq<Weapon>)
  {
    forall i, j :: 0 <= i < j < |ws| ==> ws[i].kind != ws[j].kind
  }

  /**
   * A weapon upgrade never duplicates a weapon: an owned weapon of the kind
   * gains a rank where it stands and nothing else changes; otherwise exactly
   * one rank-1 weapon of the kind is appended.
   */
  lemma UpgradeNeverDuplicates(ws: seq<Weapon>, k: WeaponType, dm: real, cm: real, now: string)
    requires k != Pistol && KindsDistinct(ws)
    ensures KindsDistinct(WeaponsAfter(ws, k, dm, cm, now))
    ensures (exists i :: 0 <= i < |ws| && ws[i].kind == k) ==>
      var r := WeaponsAfter(ws, k, dm, cm, now);
      |r| == |ws| && forall j :: 0 <= j < |ws| ==>
        r[j].kind == ws[j].kind && if ws[j].kind == k then r[j].rank == ws[j].rank + 1 else r[j] == ws[j]
    ensures (forall i :: 0 <= i < |ws| ==> ws[i].kind != k) ==>
      var r := WeaponsAfter(ws, k, dm, cm, now);
      |r| == |ws| + 1 && r[..|ws|] == ws && r[|ws|].kind == k && r[|ws|].rank == 1
  {
    var r := WeaponsAfter(ws, k, dm, cm, now);
    match FindKind(ws, k)
    case Some(i) =>
      assert r == ws[i := Upgraded(ws[i])];
    case None =>
      assert r == ws + [Unlocked(k, dm, cm, now)];
      assert r[..|ws|] == ws;
  }

  /** Rapid Fire on one weapon: 15% faster, but never below a two-frame cooldown. */
  function Hastened(w: Weapon): Weapon
  {
    w.(cooldown := MaxR(2.0, w.cooldown * 0.85))
  }

  /** High Caliber on one weapon: 20% more damage. */
  function Empowered(w: Weapon): Weapon
  {
    w.(damage := w.damage * 1.2)
  }

  /** Rapid Fire on every weapon, in order. */
  function HastenAll(ws: seq<Weapon>): (r: seq<Weapon>)
    ensures |r| == |ws| && forall i :: 0 <= i < |ws| ==> r[i] == Hastened(ws[i])
  {
    if ws == [] then [] else HastenAll(ws[..|ws| - 1]) + [Hastened(ws[|ws| - 1])]
  }

  /** High Caliber on every weapon, in order. */
  function EmpowerAll(ws: seq<Weapon>): (r: seq<Weapon>)
    ensures |r| == |ws| && forall i :: 0 <= i < |ws| ==> r[i] == Empowered(ws[i])
  {
    if ws == [] then [] else EmpowerAll(ws[..|ws| - 1]) + [Empowered(ws[|ws| - 1])]
  }

  /** The part of the player record that the upgrades change. */
  datatype Build = Build(
    hp: real, maxHp: real, speed: real, pickupRange: real,
    damageMod: real, cooldownMod: real,
    weapons: seq<Weapon>,
    ability: AbilityType, abilityCooldown: real, abilityTimer: real)

  /** The player invariant restricted to the build. */
  ghost predicate BuildOk(b: Build)
  {
    && b.hp <= b.maxHp
    && b.damageMod >= 0.0
    && |b.weapons| >= 1
    && (forall i :: 0 <= i < |b.weapons| ==> WeaponOk(b.weapons[i]))
    && b.abilityCooldown > 0.0
    && b.abilityTimer > -1.0
  }

  /** `UPGRADES_POOL[u].apply`, on the build. */
  function Applied(b: Build, u: UpgradeId, now: string): Build
  {
    match u
    case RapidFire => b.(cooldownMod := b.cooldownMod * 0.85, weapons := HastenAll(b.weapons))
    case HighCaliber => b.(damageMod := b.damageMod * 1.2, weapons := EmpowerAll(b.weapons))
    case Overclock => b.(speed := b.speed * 1.1)
    case NanoRepair => b.(maxHp := b.maxHp + 20.0, hp := MinR(b.maxHp + 20.0, b.hp + 30.0))
    case Magnetism => b.(pickupRange := b.pickupRange * 1.5)
    case FluxCapacitor => b.(abilityCooldown := b.abilityCooldown * 0.8)
    case TechShield => b.(ability := Shield, abilityCooldown := 300.0, abilityTimer := 0.0)
    case VoidNova => b.(ability := Nova, abilityCooldown := 600.0, abilityTimer := 0.0)
    case RuneBlade | VoidShotgun | GravitonOrbs | PlasmaBoomerang | InfernoCocktail | TeslaCoil =>
      b.(weapons := WeaponsAfter(b.weapons, WeaponOf(u).value, b.damageMod, b.cooldownMod, now))
  }

  /** Every upgrade keeps the player invariant. */
  lemma AppliedKeepsBuildOk(b: Build, u: UpgradeId, now: string)
    requires BuildOk(b)
    ensures BuildOk(Applied(b, u, now))
  {
    if WeaponOf(u).Some? {
      var k := WeaponOf(u).value;
      match FindKind(b.weapons, k)
      case Some(i) =>
      case None =>
        var r := b.weapons + [Unlocked(k, b.damageMod, b.cooldownMod, now)];
        assert forall i :: 0 <= i < |b.weapons| ==> r[i] == b.weapons[i];
    }
  }

  /** Nano-Repair raises the maximum by 20 and heals up to 30, never past the new maximum. */
  lemma NanoRepairHeals(b: Build)
    requires b.hp <= b.maxHp
    ensures var r := Applied(b, NanoRepair, "");
      r.maxHp == b.maxHp + 20.0 && r.hp <= r.maxHp && b.hp < r.hp <= b.hp + 30.0
  {
  }

  /** After Rapid Fire every weapon fires at least every two frames, and no weapon at or above that floor slows down. */
  lemma RapidFireFloor(b: Build, now: string)
    ensures var r := Applied(b, RapidFire, now);
      |r.weapons| == |b.weapons| &&
      forall i :: 0 <= i < |b.weapons| ==>
        2.0 <= r.weapons[i].cooldown <= MaxR(2.0, b.weapons[i].cooldown) &&
        r.weapons[i].(cooldown := b.weapons[i].cooldown) == b.weapons[i]
  {
  }

  /** Taking an ability swaps it in ready to use, with its own cooldown. */
  lemma AbilitySwapReady(b: Build, u: UpgradeId)
    requires u == TechShield || u == VoidNova
    ensures var r := Applied(b, u, "");
      r.abilityTimer == 0.0 && r.weapons == b.weapons &&
      (r.ability, r.abilityCooldown) == (if u == TechShield then (Shield, 300.0) else (Nova, 600.0))
  {
  }

  /** `n` successive upgrades of one weapon. */
  function Climb(w: Weapon, n: nat): (r: Weapon)
    requires w.kind != Pistol
    ensures r.kind == w.kind && r.rank == w.rank + n
  {
    if n == 0 then w else Upgraded(Climb(w, n - 1))
  }

  /** `x` scaled `n` times by the factor `b`. */
  function Scaled(x: real, b: real, n: nat): real
  {
    x * Pow(b, n)
  }

  /** One more factor. */
  lemma ScaledStep(x: real, b: real, n: nat)
    requires n >= 1
    ensures Scaled(x, b, n) == Scaled(x, b, n - 1) * b
  {
    assert Pow(b, n) == b * Pow(b, n - 1);
  }

  /** The shotgun's rank table: one more pellet per rank and two extra at rank 5; five frames off the cooldown per rank, down to 10. */
  lemma {:induction false} ShotgunTable(w: Weapon, n: nat)
    requires w.kind == Shotgun && w.rank == 1 && n <= 4
    ensures Climb(w, n).projectileCount == w.projectileCount + n + (if n == 4 then 2 else 0)
    ensures Climb(w, n).cooldown == (if n == 0 then w.cooldown else MaxR(10.0, w.cooldown - 5.0 * n as real))
    ensures Climb(w, n).damage == Scaled(w.damage, 1.2, n)
  {
    if n > 0 {
      ShotgunTable(w, n - 1);
      assert Climb(w, n) == Upgraded(Climb(w, n - 1));
      ScaledStep(w.damage, 1.2, n);
      assert 5.0 * (n as real) == 5.0 * ((n - 1) as real) + 5.0;
    }
  }

  /** The boomerang's rank table: twenty frames off per rank down to 30, a second boomerang at rank 5, five damage per rank. */
  lemma {:induction false} BoomerangTable(w: Weapon, n: nat)
    requires w.kind == Boomerang && w.rank == 1 && n <= 4
    ensures Climb(w, n).cooldown == (if n == 0 then w.cooldown else MaxR(30.0, w.cooldown - 20.0 * n as real))
    ensures Climb(w, n).projectileCount == (if n == 4 then 2 else w.projectileCount)
    ensures Climb(w, n).damage == w.damage + 5.0 * n as real
  {
    if n > 0 {
      BoomerangTable(w, n - 1);
      assert Climb(w, n) == Upgraded(Climb(w, n - 1));
      assert 20.0 * (n as real) == 20.0 * ((n - 1) as real) + 20.0;
    }
  }

  /** The sword's rank table: 10% off the cooldown per rank, never below 10 frames; 30% more damage per rank. */
  lemma {:induction false} SwordTable(w: Weapon, n: nat)
    requires w.kind == Sword
    ensures Climb(w, n).cooldown == (if n == 0 then w.cooldown else MaxR(10.0, Scaled(w.cooldown, 0.9, n)))
    ensures Climb(w, n).damage == Scaled(w.damage, 1.3, n)
  {
    if n > 0 {
      SwordTable(w, n - 1);
      assert Climb(w, n) == Upgraded(Climb(w, n - 1));
      ScaledStep(w.cooldown, 0.9, n);
      ScaledStep(w.damage, 1.3, n);
    }
  }

  /** The coil's rank table from rank 1: bolts 2, 2, 3, 3, 4 and half as much damage again at ranks 2 and 4. */
  lemma {:induction false} LightningTable(w: Weapon, n: nat)
    requires w.kind == Lightning && w.rank == 1 && n <= 4
    ensures Climb(w, n).projectileCount == (if n == 4 then 4 else if n >= 2 then 3 else w.projectileCount)
    ensures Climb(w, n).damage == Scaled(w.damage, 1.5, (n + 1) / 2)
  {
    if n > 0 {
      LightningTable(w, n - 1);
      assert Climb(w, n) == Upgraded(Climb(w, n - 1));
      if n % 2 == 1 {
        ScaledStep(w.damage, 1.5, (n + 1) / 2);
      }
    }
  }

  /** The orbs gain one orb and three damage per rank; the molotov ten frames off the cooldown and two damage. */
  lemma {:induction false} OrbAndMolotovTables(w: Weapon, n: nat)
    requires w.kind == Orbital || w.kind == Molotov
    ensures w.kind == Orbital ==> Climb(w, n).projectileCount == w.projectileCount + n && Climb(w, n).damage == w.damage + 3.0 * n as real
    ensures w.kind == Molotov ==> Climb(w, n).cooldown == w.cooldown - 10.0 * n as real && Climb(w, n).damage == w.damage + 2.0 * n as real
  {
    if n > 0 {
      OrbAndMolotovTables(w, n - 1);
      assert Climb(w, n) == Upgraded(Climb(w, n - 1));
    }
  }

  /**
   * The run's upgrade counts agree with the owned weapons: a weapon upgrade
   * whose weapon is owned has been taken as many times as the weapon's rank,
   * one whose weapon is not owned has not been taken, and a pistol is at rank 1.
   */
  ghost predicate RanksMatch(ws: seq<Weapon>, counts: map<UpgradeId, nat>)
  {
    && (forall u :: RankAgrees(ws, counts, u))
    && (forall i :: 0 <= i < |ws| && ws[i].kind == Pistol ==> ws[i].rank == 1)
  }

  /** The agreement for one upgrade. */
  ghost predicate RankAgrees(ws: seq<Weapon>, counts: map<UpgradeId, nat>, u: UpgradeId)
  {
    WeaponOf(u).Some? ==>
      match FindKind(ws, WeaponOf(u).value)
      case Some(i) => ws[i].rank == CountOf(counts, u)
      case None => CountOf(counts, u) == 0
  }

  /** Taking an upgrade and counting it keeps counts and ranks in agreement. */
  lemma SelectionKeepsRanks(b: Build, counts: map<UpgradeId, nat>, u: UpgradeId, now: string)
    requires KindsDistinct(b.weapons) && RanksMatch(b.weapons, counts)
    ensures var r := Applied(b, u, now);
      KindsDistinct(r.weapons) && RanksMatch(r.weapons, counts[u := CountOf(counts, u) + 1])
  {
    if WeaponOf(u).Some? {
      WeaponUpgradeKeepsRanks(b, counts, u, now);
    } else {
      var r := Applied(b, u, now);
      RetuneKeepsRanks(b.weapons, r.weapons, counts, u);
    }
  }

  /** A stat or ability upgrade keeps every weapon's kind and rank, so the agreement carries over. */
  lemma RetuneKeepsRanks(ws: seq<Weapon>, rs: seq<Weapon>, counts: map<UpgradeId, nat>, u: UpgradeId)
    requires WeaponOf(u).None? && KindsDistinct(ws) && RanksMatch(ws, counts)
    requires |rs| == |ws| && forall i :: 0 <= i < |ws| ==> rs[i].kind == ws[i].kind && rs[i].rank == ws[i].rank
    ensures KindsDistinct(rs) && RanksMatch(rs, counts[u := CountOf(counts, u) + 1])
  {
    var c := counts[u := CountOf(counts, u) + 1];
    forall v ensures RankAgrees(rs, c, v) {
      assert RankAgrees(ws, counts, v);
      if WeaponOf(v).Some? {
        KindsPreserved(ws, rs, WeaponOf(v).value);
      }
    }
  }

  /** A weapon upgrade raises its weapon's rank together with its count, and leaves the other weapons alone. */
  lemma WeaponUpgradeKeepsRanks(b: Build, counts: map<UpgradeId, nat>, u: UpgradeId, now: string)
    requires WeaponOf(u).Some? && KindsDistinct(b.weapons) && RanksMatch(b.weapons, counts)
    ensures var r := Applied(b, u, now);
      KindsDistinct(r.weapons) && RanksMatch(r.weapons, counts[u := CountOf(counts, u) + 1])
  {
    var k := WeaponOf(u).value;
    var rs := WeaponsAfter(b.weapons, k, b.damageMod, b.cooldownMod, now);
    assert Applied(b, u, now).weapons == rs;
    var c := counts[u := CountOf(counts, u) + 1];
    UpgradeNeverDuplicates(b.weapons, k, b.damageMod, b.cooldownMod, now);
    forall v ensures RankAgrees(rs, c, v) {
      if v == u {
        UpgradedAgrees(b.weapons, rs, counts, u, now, b.damageMod, b.cooldownMod);
      } else if WeaponOf(v).Some? {
        WeaponsOfPool();
        OtherKindUntouched(b.weapons, k, WeaponOf(v).value, b.damageMod, b.cooldownMod, now);
        assert RankAgrees(b.weapons, counts, v);
        assert CountOf(c, v) == CountOf(counts, v);
      }
    }
  }

  /** The upgraded weapon's rank and its upgrade's count both go up by one. */
  lemma UpgradedAgrees(ws: seq<Weapon>, rs: seq<Weapon>, counts: map<UpgradeId, nat>, u: UpgradeId, now: string, dm: real, cm: real)
    requires WeaponOf(u).Some? && KindsDistinct(ws) && RankAgrees(ws, counts, u)
    requires WeaponOf(u).value != Pistol && rs == WeaponsAfter(ws, WeaponOf(u).value, dm, cm, now)
    ensures RankAgrees(rs, counts[u := CountOf(counts, u) + 1], u)
  {
    var k := WeaponOf(u).value;
    match FindKind(ws, k)
    case Some(i) =>
      assert rs == ws[i := Upgraded(ws[i])];
      assert FindKind(rs, k) == Some(i) by { KindsPreserved(ws, rs, k); }
    case None =>
      assert rs == ws + [Unlocked(k, dm, cm, now)];
      assert FindKind(rs, k) == Some(|ws|) by { FoundAtEnd(ws, rs, k); }
  }

  /** Two lists with the same kinds at the same places find every kind at the same place. */
  lemma {:induction false} KindsPreserved(a: seq<Weapon>, b: seq<Weapon>, k: WeaponType)
    requires |a| == |b| && forall i :: 0 <= i < |a| ==> a[i].kind == b[i].kind
    ensures FindKind(a, k) == FindKind(b, k)
  {
    if a != [] {
      KindsPreserved(a[1..], b[1..], k);
    }
  }

  /** Appending a weapon of a kind not yet owned makes it the one found. */
  lemma FoundAtEnd(a: seq<Weapon>, b: seq<Weapon>, k: WeaponType)
    requires |b| == |a| + 1 && b[..|a|] == a && b[|a|].kind == k
    requires forall i :: 0 <= i < |a| ==> a[i].kind != k
    ensures FindKind(b, k) == Some(|a|)
  {
    var r := FindKind(b, k);
    assert forall i :: 0 <= i < |a| ==> b[i].kind != k by {
      forall i | 0 <= i < |a| ensures b[i].kind != k { assert b[i] == b[..|a|][i]; }
    }
  }

  /** A weapon upgrade of kind `k` leaves where any other kind is found unchanged. */
  lemma OtherKindUntouched(ws: seq<Weapon>, k: WeaponType, k2: WeaponType, dm: real, cm: real, now: string)
    requires k != Pistol && k2 != k && KindsDistinct(ws)
    ensures FindKind(WeaponsAfter(ws, k, dm, cm, now), k2) == FindKind(ws, k2)
  {
    var r := WeaponsAfter(ws, k, dm, cm, now);
    UpgradeNeverDuplicates(ws, k, dm, cm, now);
    match FindKind(ws, k)
    case Some(i) =>
      KindsPreserved(ws, r, k2);
    case None =>
      match FindKind(ws, k2)
      case Some(j) =>
        assert r[..|ws|] == ws;
        assert forall x :: 0 <= x <= j ==> r[x] == ws[x];
        FindPrefix(ws, r, k2);
      case None =>
        assert forall x :: 0 <= x < |ws| ==> r[x] == ws[x];
        assert forall x :: 0 <= x < |r| ==> r[x].kind != k2;
  }

  /** Extending a list after a found kind does not move where it is found. */
  lemma {:induction false} FindPrefix(a: seq<Weapon>, b: seq<Weapon>, k: WeaponType)
    requires |a| <= |b| && b[..|a|] == a && FindKind(a, k).Some?
    ensures FindKind(b, k) == FindKind(a, k)
  {
    if a[0].kind != k {
      assert b[0] == a[0];
      assert b[1..][..|a[1..]|] == a[1..];
      FindPrefix(a[1..], b[1..], k);
    } else {
      assert b[0] == a[0];
    }
  }

  /** With every count within its upgrade's maximum, every weapon's rank lies between 1 and 5. */
  lemma RanksWithinFive(ws: seq<Weapon>, counts: map<UpgradeId, nat>)
    requires RanksMatch(ws, counts) && KindsDistinct(ws)
    requires forall u :: CountOf(counts, u) <= MaxRank(u)
    requires forall i :: 0 <= i < |ws| ==> WeaponOk(ws[i])
    ensures forall i :: 0 <= i < |ws| ==> 1 <= ws[i].rank <= 5
  {
    forall i | 0 <= i < |ws| ensures ws[i].rank <= 5 {
      var k := ws[i].kind;
      if k != Pistol {
        var u := UpgradeFor(k);
        var f := FindKind(ws, k);
        assert f.Some? && ws[f.value].kind == k;
        assert f == Some(i);
        assert RankAgrees(ws, counts, u);
      }
    }
  }

  /** The weapon upgrade that improves a kind other than the pistol. */
  function UpgradeFor(k: WeaponType): (u: UpgradeId)
    requires k != Pistol
    ensures WeaponOf(u) == Some(k) && MaxRank(u) == 5
  {
    match k
    case Sword => RuneBlade
    case Shotgun => VoidShotgun
    case Orbital => GravitonOrbs
    case Boomerang => PlasmaBoomerang
    case Molotov => InfernoCocktail
    case Lightning => TeslaCoil
  }

  /** Whether `u` has been taken fewer times than its maximum. */
  function Open(counts: map<UpgradeId, nat>): UpgradeId -> bool
  {
    (u: UpgradeId) => CountOf(counts, u) < MaxRank(u)
  }

  /** The elements of `s` taken fewer times than their maximum, in order. */
  function Unmaxed(counts: map<UpgradeId, nat>, s: seq<UpgradeId>): seq<UpgradeId>
  {
    if s == [] then []
    else (if CountOf(counts, s[0]) < MaxRank(s[0]) then [s[0]] else []) + Unmaxed(counts, s[1..])
  }

  /** `Unmaxed` is the pool filter `UPGRADES_POOL.filter(opt => count < opt.maxRank)`. */
  lemma {:induction false} UnmaxedIsFilter(counts: map<UpgradeId, nat>, s: seq<UpgradeId>)
    ensures Unmaxed(counts, s) == Filter(s, Open(counts))
  {
    if s != [] {
      UnmaxedIsFilter(counts, s[1..]);
    }
  }

  /** The upgrades still on offer: those taken fewer times than their maximum, in pool order. */
  function Available(counts: map<UpgradeId, nat>): seq<UpgradeId>
  {
    Unmaxed(counts, Pool)
  }

  /** One option as shown: its current rank and whether taking it reaches the maximum. */
  datatype UpgradeDisplay = UpgradeDisplay(option: UpgradeId, currentRank: nat, isMax: bool)

  function Display(counts: map<UpgradeId, nat>, u: UpgradeId): UpgradeDisplay
  {
    UpgradeDisplay(u, CountOf(counts, u), CountOf(counts, u) + 1 >= MaxRank(u))
  }

  function Displays(counts: map<UpgradeId, nat>, s: seq<UpgradeId>): (r: seq<UpgradeDisplay>)
    ensures |r| == |s| && forall i :: 0 <= i < |s| ==> r[i] == Display(counts, s[i])
  {
    if s == [] then [] else Displays(counts, s[..|s| - 1]) + [Display(counts, s[|s| - 1])]
  }

  /**
   * `handleLevelUp`'s offer: the first three of the available upgrades in
   * the shuffled order. The shuffle is random, so the caller supplies it;
   * all that is known of it is that it reorders the available upgrades.
   */
  function Offer(counts: map<UpgradeId, nat>, shuffled: seq<UpgradeId>): (r: seq<UpgradeDisplay>)
    requires multiset(shuffled) == multiset(Available(counts))
    ensures |r| == MinI(3, |Available(counts)|)
    ensures forall i :: 0 <= i < |r| ==> r[i].currentRank == CountOf(counts, r[i].option) < MaxRank(r[i].option)
    ensures forall i :: 0 <= i < |r| ==> (r[i].isMax <==> r[i].currentRank + 1 >= MaxRank(r[i].option))
    ensures forall i, j :: 0 <= i < j < |r| ==> r[i].option != r[j].option
  {
    OfferShown(counts, shuffled, Displays(counts, FirstThree(shuffled)));
    Displays(counts, FirstThree(shuffled))
  }

  /** `slice(0, 3)`. */
  function FirstThree<T>(s: seq<T>): (r: seq<T>)
    ensures |r| == MinI(3, |s|) && forall i :: 0 <= i < |r| ==> r[i] == s[i]
  {
    if |s| <= 3 then s else s[..3]
  }

  lemma OfferShown(counts: map<UpgradeId, nat>, shuffled: seq<UpgradeId>, r: seq<UpgradeDisplay>)
    requires multiset(shuffled) == multiset(Available(counts))
    requires r == Displays(counts, FirstThree(shuffled))
    ensures |r| == MinI(3, |Available(counts)|)
    ensures forall i :: 0 <= i < |r| ==> r[i].currentRank == CountOf(counts, r[i].option) < MaxRank(r[i].option)
    ensures forall i :: 0 <= i < |r| ==> (r[i].isMax <==> r[i].currentRank + 1 >= MaxRank(r[i].option))
    ensures forall i, j :: 0 <= i < j < |r| ==> r[i].option != r[j].option
  {
    ShuffledAvailable(counts, shuffled);
    ShownInOrder(counts, shuffled, r);
    ShownBelowMax(counts, shuffled, r);
    ShownDistinct(shuffled, r);
  }

  lemma ShownBelowMax(counts: map<UpgradeId, nat>, shuffled: seq<UpgradeId>, r: seq<UpgradeDisplay>)
    requires |r| <= |shuffled|
    requires forall i :: 0 <= i < |shuffled| ==> CountOf(counts, shuffled[i]) < MaxRank(shuffled[i])
    requires forall i :: 0 <= i < |r| ==> r[i] == Display(counts, shuffled[i])
    ensures forall i :: 0 <= i < |r| ==> r[i].currentRank == CountOf(counts, r[i].option) < MaxRank(r[i].option)
    ensures forall i :: 0 <= i < |r| ==> (r[i].isMax <==> r[i].currentRank + 1 >= MaxRank(r[i].option))
  {
  }

  lemma ShownDistinct(shuffled: seq<UpgradeId>, r: seq<UpgradeDisplay>)
    requires NoDup(shuffled) && |r| <= |shuffled|
    requires forall i :: 0 <= i < |r| ==> r[i].option == shuffled[i]
    ensures forall i, j :: 0 <= i < j < |r| ==> r[i].option != r[j].option
  {
  }

  /** The options shown are the first shuffled upgrades, in order. */
  lemma ShownInOrder(counts: map<UpgradeId, nat>, shuffled: seq<UpgradeId>, r: seq<UpgradeDisplay>)
    requires r == Displays(counts, FirstThree(shuffled))
    ensures |r| == MinI(3, |shuffled|)
    ensures forall i :: 0 <= i < |r| ==> r[i].option == shuffled[i] && r[i] == Display(counts, shuffled[i])
  {
  }

  /** A reordering of the available upgrades has their number, no repeats, and only upgrades below their maximum. */
  lemma ShuffledAvailable(counts: map<UpgradeId, nat>, shuffled: seq<UpgradeId>)
    requires multiset(shuffled) == multiset(Available(counts))
    ensures |shuffled| == |Available(counts)| && NoDup(shuffled)
    ensures forall i :: 0 <= i < |shuffled| ==> CountOf(counts, shuffled[i]) < MaxRank(shuffled[i])
  {
    var a := Available(counts);
    assert |multiset(shuffled)| == |multiset(a)|;
    PoolComplete();
    UnmaxedIsFilter(counts, Pool);
    FilterNoDup(Pool, Open(counts));
    PermutationNoDup(a, shuffled);
    forall i | 0 <= i < |shuffled| ensures CountOf(counts, shuffled[i]) < MaxRank(shuffled[i]) {
      assert shuffled[i] in multiset(a);
      assert shuffled[i] in a;
    }
  }
}
