/**
 * The game shell of App.tsx: the React state the handlers update, the
 * start of a run from the profile's meta upgrades, the level-up offer and
 * the choice of an upgrade, the end of a run and the meta shop.
 */
module AppShell {
  import opened Types
  import opened Util
  import opened Upgrades
  import opened Meta
  import opened Storage

  /** The player record's build, as the upgrades see it. */
  function BuildOf(p: Player): Build
    reads p
  {
    Build(p.hp, p.maxHp, p.speed, p.pickupRange, p.damageMod, p.cooldownMod,
          p.weapons, p.activeAbility, p.abilityCooldown, p.abilityTimer)
  }

  /** Rapid Fire's loop over the weapons. */
  method HastenWeapons(ws: seq<Weapon>) returns (r: seq<Weapon>)
    ensures r == HastenAll(ws)
  {
    r := ws;
    var i := 0;
    while i < |r|
      invariant i <= |r| == |ws|
      invariant forall k :: 0 <= k < i ==> r[k] == Hastened(ws[k])
      invariant forall k :: i <= k < |r| ==> r[k] == ws[k]
    {
      r := r[i := Hastened(r[i])];
      i := i + 1;
    }
  }

  /** High Caliber's loop over the weapons. */
  method EmpowerWeapons(ws: seq<Weapon>) returns (r: seq<Weapon>)
    ensures r == EmpowerAll(ws)
  {
    r := ws;
    var i := 0;
    while i < |r|
      invariant i <= |r| == |ws|
      invariant forall k :: 0 <= k < i ==> r[k] == Empowered(ws[k])
      invariant forall k :: i <= k < |r| ==> r[k] == ws[k]
    {
      r := r[i := Empowered(r[i])];
      i := i + 1;
    }
  }

  /** `opt.apply(player)`: the upgrade changes the player record in place. */
  method ApplyUpgrade(p: Player, u: UpgradeId, now: string)
    requires p.Valid()
    modifies p`hp, p`maxHp, p`speed, p`pickupRange, p`damageMod, p`cooldownMod
    modifies p`weapons, p`activeAbility, p`abilityCooldown, p`abilityTimer
    ensures p.Valid()
    ensures BuildOf(p) == Applied(old(BuildOf(p)), u, now)
  {
    match u
    case RapidFire => Retune(p, u, now);
    case HighCaliber => Retune(p, u, now);
    case Overclock => Boost(p, u, now);
    case NanoRepair => Boost(p, u, now);
    case Magnetism => Boost(p, u, now);
    case FluxCapacitor => Boost(p, u, now);
    case TechShield => SwapAbility(p, u, now);
    case VoidNova => SwapAbility(p, u, now);
    case RuneBlade => GrantWeapon(p, u, now);
    case VoidShotgun => GrantWeapon(p, u, now);
    case GravitonOrbs => GrantWeapon(p, u, now);
    case PlasmaBoomerang => GrantWeapon(p, u, now);
    case InfernoCocktail => GrantWeapon(p, u, now);
    case TeslaCoil => GrantWeapon(p, u, now);
  }

  /** Rapid Fire and High Caliber: a modifier and every weapon, one by one. */
  method Retune(p: Player, u: UpgradeId, now: string)
    requires p.Valid() && (u == RapidFire || u == HighCaliber)
    modifies p`damageMod, p`cooldownMod, p`weapons
    ensures p.Valid()
    ensures BuildOf(p) == Applied(old(BuildOf(p)), u, now)
  {
    ghost var b0 := BuildOf(p);
    AppliedKeepsBuildOk(b0, u, now);
    var ws, dm, cm := p.weapons, p.damageMod, p.cooldownMod;
    if u == RapidFire {
      ws := HastenWeapons(ws);
      cm := cm * 0.85;
    } else {
      ws := EmpowerWeapons(ws);
      dm := dm * 1.2;
    }
    assert Applied(b0, u, now) == b0.(damageMod := dm, cooldownMod := cm, weapons := ws);
    p.weapons, p.damageMod, p.cooldownMod := ws, dm, cm;
  }

  /** Overclock, Nano-Repair, Magnetism and Flux Capacitor: one stat each. */
  method Boost(p: Player, u: UpgradeId, now: string)
    requires p.Valid() && (u == Overclock || u == NanoRepair || u == Magnetism || u == FluxCapacitor)
    modifies p`hp, p`maxHp, p`speed, p`pickupRange, p`abilityCooldown
    ensures p.Valid()
    ensures BuildOf(p) == Applied(old(BuildOf(p)), u, now)
  {
    AppliedKeepsBuildOk(BuildOf(p), u, now);
    if u == Overclock {
      p.speed := p.speed * 1.1;
    } else if u == NanoRepair {
      p.maxHp := p.maxHp + 20.0;
      p.hp := MinR(p.maxHp, p.hp + 30.0);
    } else if u == Magnetism {
      p.pickupRange := p.pickupRange * 1.5;
    } else {
      p.abilityCooldown := p.abilityCooldown * 0.8;
    }
  }

  /** Tech Shield and Void Nova: the ability is replaced, ready to use. */
  method SwapAbility(p: Player, u: UpgradeId, now: string)
    requires p.Valid() && (u == TechShield || u == VoidNova)
    modifies p`activeAbility, p`abilityCooldown, p`abilityTimer
    ensures p.Valid()
    ensures BuildOf(p) == Applied(old(BuildOf(p)), u, now)
  {
    if u == TechShield {
      p.activeAbility, p.abilityCooldown, p.abilityTimer := Shield, 300.0, 0.0;
    } else {
      p.activeAbility, p.abilityCooldown, p.abilityTimer := Nova, 600.0, 0.0;
    }
  }

  /** A weapon upgrade: the owned weapon ranks up, or the weapon is added. */
  method GrantWeapon(p: Player, u: UpgradeId, now: string)
    requires p.Valid() && WeaponOf(u).Some?
    modifies p`weapons
    ensures p.Valid()
    ensures BuildOf(p) == Applied(old(BuildOf(p)), u, now)
  {
    AppliedKeepsBuildOk(BuildOf(p), u, now);
    p.weapons := WeaponsAfter(p.weapons, WeaponOf(u).value, p.damageMod, p.cooldownMod, now);
  }

  /** The upgrade counts a run starts with: its starting weapon's upgrade, when it has one, taken once. */
  function SeededCounts(t: WeaponType): map<UpgradeId, nat>
  {
    match t
    case Sword => map[RuneBlade := 1]
    case Shotgun => map[VoidShotgun := 1]
    case Boomerang => map[PlasmaBoomerang := 1]
    case _ => map[]
  }

  /** The starting weapon with the meta damage bonus. */
  function MetaStarter(t: WeaponType, dmgMult: real): Weapon
  {
    var w := StarterWeapon(t);
    w.(damage := w.damage * dmgMult)
  }

  /**
   * A run starts with its one weapon at rank 1 and the counts agreeing: the
   * seeded upgrade is that weapon's, and a choice without a starting weapon
   * of its own starts with the pistol and no counts.
   */
  lemma StartAgrees(t: WeaponType, dmgMult: real)
    requires dmgMult >= 0.0
    ensures var w := MetaStarter(t, dmgMult);
      WeaponOk(w) && KindsDistinct([w]) && RanksMatch([w], SeededCounts(t)) &&
      (w.kind == t || (w.kind == Pistol && SeededCounts(t) == map[]))
  {
    var w := MetaStarter(t, dmgMult);
    var ws := [w];
    forall u ensures RankAgrees(ws, SeededCounts(t), u) {
      if WeaponOf(u).Some? {
        var k := WeaponOf(u).value;
        WeaponsOfPool();
        if k == w.kind {
          assert FindKind(ws, k) == Some(0);
        } else {
          assert FindKind(ws, k) == None by {
            assert FindKind(ws[1..], k) == None;
          }
        }
      }
    }
  }

  /** App.tsx's state, with the storage it reads and writes. */
  class App {
    var gameState: GameState
    var score: int
    var earnedCredits: int
    var isNewHighScore: bool
    var counts: map<UpgradeId, nat>
    var currentUpgrades: seq<UpgradeDisplay>
    var playerLevel: int
    var currentMap: GameMap
    var userProfile: UserProfile
    var startWeapon: WeaponType
    var player: Player
    const store: Store

    /** The profile has a rank for every meta upgrade, and the map is one of the configured maps. */
    ghost predicate ShellOk()
      reads this`userProfile, this`currentMap
    {
      RanksComplete(userProfile.upgrades) && currentMap in Maps
    }

    /** The player's weapons are of distinct kinds and agree with the upgrade counts. */
    ghost predicate RunOk()
      reads this`player, this`counts, player`weapons
    {
      KindsDistinct(player.weapons) && RanksMatch(player.weapons, counts)
    }

    /** The shell's invariant: a complete profile, a configured map, and a valid player whose weapons agree with the counts. */
    ghost predicate Valid()
      reads this, player
    {
      ShellOk() && player.Valid() && RunOk()
    }

    /** The shell at the menu, with the stored profile loaded and the first map chosen. */
    constructor (store: Store)
      ensures Valid()
      ensures this.store == store && gameState == Menu && currentMap == Maps[0]
      ensures userProfile == store.GetUserProfile() && startWeapon == Sword
    {
      this.store := store;
      gameState, score, earnedCredits, isNewHighScore := Menu, 0, 0, false;
      counts, currentUpgrades, playerLevel := map[], [], 1;
      currentMap := Maps[0];
      LoadedProfileComplete(store.profile);
      userProfile := store.GetUserProfile();
      startWeapon := Sword;
      StartAgrees(Pistol, 1.0);
      player := new Player(0.0, 0.0, 100.0, 4.0, 0.0, 100.0, 1.0, 1.0, MetaStarter(Pistol, 1.0));
    }

    /**
     * `launchGame`: a new player whose stats come from the profile's ranks,
     * centred in the view, with the starting weapon and the seeded counts.
     */
    method LaunchGame(t: WeaponType, viewW: real, viewH: real)
      requires Valid()
      modifies this`startWeapon, this`player, this`counts, this`score, this`playerLevel, this`gameState
      ensures Valid() && fresh(player)
      ensures var s := StatsOf(userProfile.upgrades);
        && player.hp == s.baseHp && player.maxHp == s.baseHp && player.speed == s.speed
        && player.armor == s.armor && player.pickupRange == s.pickupRange
        && player.damageMod == s.dmgMult && player.xpMultiplier == s.xpMult
        && player.weapons == [MetaStarter(t, s.dmgMult)]
        && player.x == viewW / 2.0 && player.y == viewH / 2.0 && player.radius == 24.0
        && player.level == 1 && player.xp == 0.0 && player.xpToNextLevel == 100 && player.cooldownMod == 1.0
        && player.activeAbility == Dash && player.abilityCooldown == 120.0 && player.abilityTimer == 0.0
        && player.abilityActiveTimer == 0
        && player.state == Idle && player.frame == 0 && player.frameTimer == 0 && player.facing == 1
      ensures startWeapon == t && counts == SeededCounts(t) && score == 0 && playerLevel == 1 && gameState == Playing
    {
      startWeapon := t;
      var s := StatsOf(userProfile.upgrades);
      StartAgrees(t, s.dmgMult);
      var starter := MetaStarter(t, s.dmgMult);
      player := new Player(viewW / 2.0, viewH / 2.0, s.baseHp, s.speed, s.armor, s.pickupRange,
                           s.dmgMult, s.xpMult, starter);
      counts := SeededCounts(t);
      score, playerLevel, gameState := 0, 1, Playing;
    }

    /**
     * `handleLevelUp`: up to three of the upgrades still available, in the
     * order of a caller-supplied shuffle, shown with their ranks.
     */
    method HandleLevelUp(shuffled: seq<UpgradeId>)
      requires Valid()
      requires multiset(shuffled) == multiset(Available(counts))
      modifies this`currentUpgrades, this`gameState, this`playerLevel
      ensures Valid()
      ensures currentUpgrades == Offer(old(counts), shuffled)
      ensures gameState == LevelUp && playerLevel == player.level
    {
      var c := counts;
      var offer := Offer(c, shuffled);
      currentUpgrades := offer;
      gameState := LevelUp;
      playerLevel := player.level;
    }

    /** `handleSelectUpgrade`: the upgrade is applied to the player and counted, and play resumes. */
    method HandleSelectUpgrade(u: UpgradeId, now: string)
      requires Valid()
      modifies player`hp, player`maxHp, player`speed, player`pickupRange, player`damageMod, player`cooldownMod
      modifies player`weapons, player`activeAbility, player`abilityCooldown, player`abilityTimer
      modifies this`counts, this`gameState
      ensures Valid()
      ensures BuildOf(player) == Applied(old(BuildOf(player)), u, now)
      ensures counts == old(counts)[u := CountOf(old(counts), u) + 1] && gameState == Playing
    {
      SelectionKeepsRanks(BuildOf(player), counts, u, now);
      ApplyUpgrade(player, u, now);
      counts := counts[u := CountOf(counts, u) + 1];
      gameState := Playing;
    }

    /**
     * `handleGameOver`: the score is kept and checked against the map's
     * board, the run's credits are added to the stored profile, which is
     * saved and becomes the shell's profile.
     */
    method HandleGameOver(finalScore: int, kills: nat)
      requires Valid()
      modifies this`score, this`isNewHighScore, this`earnedCredits, this`userProfile, this`gameState
      modifies store`profile
      ensures Valid()
      ensures score == finalScore && gameState == GameOver
      ensures isNewHighScore == IsHighScore(old(store.GetLeaderboard()), finalScore, currentMap.id)
      ensures earnedCredits == EarnedCredits(kills, currentMap) >= 50 * kills
      ensures var loaded := old(store.GetUserProfile());
        userProfile == loaded.(credits := loaded.credits + earnedCredits)
      ensures store.profile == Holds(Stored(userProfile))
    {
      RecordScore(finalScore);
      PayOut(kills);
      gameState := GameOver;
    }

    /** The final score is kept, and whether it makes the current map's board. */
    method RecordScore(finalScore: int)
      modifies this`score, this`isNewHighScore
      ensures score == finalScore
      ensures isNewHighScore == IsHighScore(store.GetLeaderboard(), finalScore, currentMap.id)
    {
      score := finalScore;
      isNewHighScore := IsHighScore(store.GetLeaderboard(), finalScore, currentMap.id);
    }

    /** The run's credits are added to the stored profile, which is saved and becomes the shell's profile. */
    method PayOut(kills: nat)
      requires ShellOk()
      modifies this`earnedCredits, this`userProfile, store`profile
      ensures ShellOk()
      ensures earnedCredits == EarnedCredits(kills, currentMap) >= 50 * kills
      ensures var loaded := old(store.GetUserProfile());
        userProfile == loaded.(credits := loaded.credits + earnedCredits)
      ensures store.profile == Holds(Stored(userProfile))
    {
      CreditsOnMap(kills, currentMap);
      var credits := EarnedCredits(kills, currentMap);
      earnedCredits := credits;
      var current := store.GetUserProfile();
      LoadedProfileComplete(store.profile);
      current := current.(credits := current.credits + credits);
      store.SaveUserProfile(current);
      userProfile := current;
    }

    /** `handleSaveScore`: the run's result joins the leaderboard under the given name, or "Survivor" without one. */
    method HandleSaveScore(name: string, wave: int, date: string)
      requires Valid()
      modifies store`leaderboard
      ensures Valid()
      ensures store.leaderboard == Holds(Saved(old(store.GetLeaderboard()),
        LeaderboardEntry(if name == "" then "Survivor" else name, score, wave, currentMap.id, currentMap.name, date, startWeapon)))
    {
      var entry := LeaderboardEntry(if name == "" then "Survivor" else name, score, wave,
                                    currentMap.id, currentMap.name, date, startWeapon);
      store.SaveScore(entry);
    }

    /**
     * `handleBuyMetaUpgrade`: a purchase the profile can make is paid for
     * and saved; any other request changes nothing.
     */
    method HandleBuyMetaUpgrade(id: MetaUpgradeId)
      requires Valid()
      modifies this`userProfile, store`profile
      ensures Valid()
      ensures userProfile == Buy(old(userProfile), id)
      ensures userProfile != old(userProfile) ==> store.profile == Holds(Stored(userProfile))
      ensures userProfile == old(userProfile) ==> store.profile == old(store.profile)
    {
      var next := Buy(userProfile, id);
      BuyGuarded(userProfile, id);
      if next != userProfile {
        store.SaveUserProfile(next);
        userProfile := next;
      }
    }
  }
}
