/**
 * services/storageService.ts: the leaderboard and the player profile kept
 * in the browser's local storage. Each storage key is modelled by what its
 * text decodes to: nothing (no text, or empty text), text that does not
 * parse, or the parsed value.
 */
module Storage {
  import opened Types
  import opened Util
  import opened Meta

  const LeaderboardKey: string := "void_survivor_leaderboard"
  const ProfileKey: string := "void_survivor_profile"

  /** What one storage key holds, as the service can tell. */
  datatype Slot<T> = Missing | Unparsable | Holds(value: T)

  /** A stored profile as parsed: either top-level field may be absent, and so may any rank. */
  datatype StoredProfile = StoredProfile(credits: Option<nat>, upgrades: Option<map<MetaUpgradeId, nat>>)

  /** `DEFAULT_PROFILE`: no credits and every rank at zero. */
  const DefaultRanks: map<MetaUpgradeId, nat> :=
    map[HealthUp := 0, DamageUp := 0, SpeedUp := 0, XpUp := 0, MagnetUp := 0, ArmorUp := 0]
  const DefaultProfile: UserProfile := UserProfile(0, DefaultRanks)

  // ---- leaderboard ----

  /** `getLeaderboard`: the stored list, or an empty one when nothing usable is stored. */
  function Board(slot: Slot<seq<LeaderboardEntry>>): seq<LeaderboardEntry>
  {
    match slot
    case Holds(b) => b
    case _ => []
  }

  /** The sort key of `sort((a, b) => b.score - a.score)`: higher scores first. */
  function Descending(e: LeaderboardEntry): real
  {
    -(e.score as real)
  }

  function OnMap(mapId: MapId): LeaderboardEntry -> bool
  {
    (e: LeaderboardEntry) => e.mapId == mapId
  }

  /** The entries of one map, in their stored order. */
  function EntriesOf(all: seq<LeaderboardEntry>, mapId: MapId): seq<LeaderboardEntry>
  {
    if all == [] then []
    else (if all[0].mapId == mapId then [all[0]] else []) + EntriesOf(all[1..], mapId)
  }

  /** `EntriesOf` is `all.filter(entry => entry.mapId === mapId)`. */
  lemma {:induction false} EntriesOfIsFilter(all: seq<LeaderboardEntry>, mapId: MapId)
    ensures EntriesOf(all, mapId) == Filter(all, OnMap(mapId))
  {
    if all != [] {
      EntriesOfIsFilter(all[1..], mapId);
    }
  }

  /** `getMapLeaderboard`: the entries of one map, best first, at most ten. */
  function MapBoard(all: seq<LeaderboardEntry>, mapId: MapId): seq<LeaderboardEntry>
  {
    Take(SortBy(EntriesOf(all, mapId), Descending), 10)
  }

  /**
   * A map's board holds ten entries, or all of the map's entries when it has
   * fewer; they are entries of that map taken from the stored list, best
   * score first, and no entry of the map left off scores higher than one on it.
   */
  lemma MapBoardIsTopTen(all: seq<LeaderboardEntry>, mapId: MapId)
    ensures var r, f := MapBoard(all, mapId), Filter(all, OnMap(mapId));
      && |r| == MinI(10, Count(all, OnMap(mapId)))
      && (forall i :: 0 <= i < |r| ==> r[i].mapId == mapId && r[i] in all)
      && (forall i, j :: 0 <= i < j < |r| ==> r[i].score >= r[j].score)
      && multiset(r) <= multiset(f)
      && (forall e :: e in multiset(f) - multiset(r) ==> forall i :: 0 <= i < |r| ==> r[i].score >= e.score)
  {
    var f := Filter(all, OnMap(mapId));
    EntriesOfIsFilter(all, mapId);
    var s := SortBy(f, Descending);
    FilterCount(all, OnMap(mapId));
    SortBySorted(f, Descending);
    TopOf(s, Descending, 10);
    var r := Take(s, 10);
    forall i | 0 <= i < |r| ensures r[i].mapId == mapId && r[i] in all {
      assert r[i] in multiset(f);
    }
  }

  /** `saveScore`'s new list: the entry added, best first, at most one hundred. */
  function Saved(all: seq<LeaderboardEntry>, e: LeaderboardEntry): seq<LeaderboardEntry>
  {
    Take(SortBy(all + [e], Descending), 100)
  }

  /**
   * Saving keeps at most a hundred entries, best first, all taken from the
   * old list and the new entry, dropping none that scores higher than a kept
   * one; below a hundred entries nothing is dropped.
   */
  lemma SavedIsTopHundred(all: seq<LeaderboardEntry>, e: LeaderboardEntry)
    ensures var r := Saved(all, e);
      && |r| == MinI(100, |all| + 1)
      && (forall i, j :: 0 <= i < j < |r| ==> r[i].score >= r[j].score)
      && multiset(r) <= multiset(all) + multiset{e}
      && (forall x :: x in multiset(all) + multiset{e} - multiset(r) ==> forall i :: 0 <= i < |r| ==> r[i].score >= x.score)
      && (|all| < 100 ==> multiset(r) == multiset(all) + multiset{e})
  {
    var s := SortBy(all + [e], Descending);
    SortBySorted(all + [e], Descending);
    TopOf(s, Descending, 100);
    assert multiset(all + [e]) == multiset(all) + multiset{e};
  }

  /** `isHighScore`: the map's board has a free place, or the score beats its last entry. */
  function IsHighScore(all: seq<LeaderboardEntry>, score: int, mapId: MapId): bool
  {
    var b := MapBoard(all, mapId);
    |b| < 10 || score > b[|b| - 1].score
  }

  /** A score counts as a record exactly when the map's board is not full or the score beats some entry on it. */
  lemma HighScoreBeatsBoard(all: seq<LeaderboardEntry>, score: int, mapId: MapId)
    ensures var b := MapBoard(all, mapId);
      IsHighScore(all, score, mapId) <==> |b| < 10 || exists i :: 0 <= i < |b| && score > b[i].score
  {
    var b := MapBoard(all, mapId);
    MapBoardIsTopTen(all, mapId);
    if |b| == 10 && exists i :: 0 <= i < |b| && score > b[i].score {
      var i :| 0 <= i < |b| && score > b[i].score;
      assert i == |b| - 1 || b[i].score >= b[|b| - 1].score;
    }
  }

  // ---- profile ----

  /**
   * `getUserProfile` as written: the stored fields replace the defaults one
   * top-level field at a time, so a stored rank table replaces the default
   * table whole, missing ranks included.
   */
  function LoadProfileAsWritten(slot: Slot<StoredProfile>): UserProfile
  {
    match slot
    case Holds(sp) =>
      UserProfile(
        match sp.credits case Some(c) => c case None => DefaultProfile.credits,
        match sp.upgrades case Some(u) => u case None => DefaultProfile.upgrades)
    case _ => DefaultProfile
  }

  /**
   * A profile saved before the armor upgrade existed loads without an armor
   * rank, and then no amount of credits buys armor.
   */
  lemma OldProfileCannotBuyArmor(credits: nat)
    ensures var legacy := StoredProfile(Some(credits),
        Some(map[HealthUp := 0, DamageUp := 0, SpeedUp := 0, XpUp := 0, MagnetUp := 0]));
      var p := LoadProfileAsWritten(Holds(legacy));
      ArmorUp !in p.upgrades && Buy(p, ArmorUp) == p
  {
  }

  /**
   * `getUserProfile` as intended: every rank the stored profile lacks takes
   * its default, so later additions to the shop load at rank zero.
   */
  function LoadProfile(slot: Slot<StoredProfile>): UserProfile
  {
    match slot
    case Holds(sp) =>
      UserProfile(
        match sp.credits case Some(c) => c case None => DefaultProfile.credits,
        match sp.upgrades case Some(u) => DefaultRanks + u case None => DefaultRanks)
    case _ => DefaultProfile
  }

  /** What `saveUserProfile` stores: every field of the profile. */
  function Stored(p: UserProfile): StoredProfile
  {
    StoredProfile(Some(p.credits), Some(p.upgrades))
  }

  /**
   * A loaded profile has every rank; each stored rank and stored credit
   * balance is kept, and anything not stored is zero.
   */
  lemma LoadedProfileComplete(slot: Slot<StoredProfile>)
    ensures var p := LoadProfile(slot);
      && RanksComplete(p.upgrades)
      && (slot.Holds? && slot.value.upgrades.Some? ==>
            forall id :: id in slot.value.upgrades.value ==> p.upgrades[id] == slot.value.upgrades.value[id])
      && (forall id :: !(slot.Holds? && slot.value.upgrades.Some? && id in slot.value.upgrades.value) ==> p.upgrades[id] == 0)
      && p.credits == (if slot.Holds? && slot.value.credits.Some? then slot.value.credits.value else 0)
  {
    forall id ensures id in DefaultRanks && DefaultRanks[id] == 0 {
      match id
      case HealthUp => case DamageUp => case SpeedUp => case XpUp => case MagnetUp => case ArmorUp =>
    }
  }

  /** Saving a complete profile and loading it back gives the same profile. */
  lemma ProfileRoundTrip(p: UserProfile)
    requires RanksComplete(p.upgrades)
    ensures LoadProfile(Holds(Stored(p))) == p
  {
    assert DefaultRanks + p.upgrades == p.upgrades;
  }

  /** With the intended merge an old profile can buy armor once it has the credits. */
  lemma OldProfileBuysArmor(credits: nat)
    requires credits >= 1000
    ensures var legacy := StoredProfile(Some(credits),
        Some(map[HealthUp := 0, DamageUp := 0, SpeedUp := 0, XpUp := 0, MagnetUp := 0]));
      var p := LoadProfile(Holds(legacy));
      p.upgrades[ArmorUp] == 0 && Buy(p, ArmorUp).upgrades[ArmorUp] == 1 && Buy(p, ArmorUp).credits == credits - 1000
  {
    var legacy := StoredProfile(Some(credits),
        Some(map[HealthUp := 0, DamageUp := 0, SpeedUp := 0, XpUp := 0, MagnetUp := 0]));
    var p := LoadProfile(Holds(legacy));
    assert p.upgrades[ArmorUp] == 0;
    FindsOwnEntry(ArmorUp);
    assert Pow(1.2, 0) == 1.0;
    assert NextCost(ArmorUp, 0) == 1000;
    BuyGuarded(p, ArmorUp);
  }

  /** localStorage, for the service's two keys. */
  class Store {
    var leaderboard: Slot<seq<LeaderboardEntry>>
    var profile: Slot<StoredProfile>

    constructor (leaderboard: Slot<seq<LeaderboardEntry>>, profile: Slot<StoredProfile>)
      ensures this.leaderboard == leaderboard && this.profile == profile
    {
      this.leaderboard, this.profile := leaderboard, profile;
    }

    /** `getLeaderboard`. */
    function GetLeaderboard(): seq<LeaderboardEntry>
      reads this`leaderboard
    {
      Board(leaderboard)
    }

    /** `saveScore`: the entry joins the list, which is stored sorted and trimmed to a hundred. */
    method SaveScore(e: LeaderboardEntry)
      modifies this`leaderboard
      ensures leaderboard == Holds(Saved(old(GetLeaderboard()), e))
    {
      var all := GetLeaderboard();
      leaderboard := Holds(Saved(all, e));
    }

    /** `getUserProfile`, with the intended merge. */
    function GetUserProfile(): UserProfile
      reads this`profile
    {
      LoadProfile(profile)
    }

    /** `saveUserProfile`. */
    method SaveUserProfile(p: UserProfile)
      modifies this`profile
      ensures profile == Holds(Stored(p))
    {
      profile := Holds(Stored(p));
    }
  }
}
