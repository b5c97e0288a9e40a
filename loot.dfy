/**
 * `updateLoot`: the player's magnet pulls nearby loot in, and loot that
 * reaches the player is collected. Experience adds up and levels the player
 * up at most once per pickup; a health pickup heals 25 up to the maximum.
 */
module Pickups {
  import opened Types
  import opened Util
  import opened Combat
  import opened GameLoop

  // ---------------------------------------------------------------------------
  // One piece of loot

  /** Inside the pickup range the loot moves 15% of the way to the player. */
  function Pull(l: Loot, px: real, py: real, range: real): Loot
  {
    if Near(px, py, l.x, l.y, range) then l.(x := l.x + (px - l.x) * 0.15, y := l.y + (py - l.y) * 0.15) else l
  }

  /** The pull leaves 85% of the distance, so 72.25% of its square; outside the range nothing moves. */
  lemma PullCloses(l: Loot, px: real, py: real, range: real)
    ensures Near(px, py, l.x, l.y, range) ==>
      DistSq(px, py, Pull(l, px, py, range).x, Pull(l, px, py, range).y) == 0.7225 * DistSq(px, py, l.x, l.y)
    ensures !Near(px, py, l.x, l.y, range) ==> Pull(l, px, py, range) == l
  {
    if Near(px, py, l.x, l.y, range) {
      var a, b := px - l.x, py - l.y;
      assert px - (l.x + a * 0.15) == 0.85 * a;
      assert py - (l.y + b * 0.15) == 0.85 * b;
      assert (0.85 * a) * (0.85 * a) == 0.7225 * (a * a);
      assert (0.85 * b) * (0.85 * b) == 0.7225 * (b * b);
    }
  }

  /**
   * Collected: inside the pickup range and closer than `reach` (the player's
   * radius plus ten), both measured from where the loot was before the pull.
   */
  predicate Collected(l: Loot, px: real, py: real, range: real, reach: real)
  {
    Near(px, py, l.x, l.y, range) && Near(px, py, l.x, l.y, reach)
  }

  /** The loot after the stage: pulled, and marked for deletion once collected. */
  function Swept(l: Loot, px: real, py: real, range: real, reach: real): (r: Loot)
    ensures r.value == l.value && r.kind == l.kind && r.radius == l.radius
    ensures r.marked <==> l.marked || Collected(l, px, py, range, reach)
    ensures !Near(px, py, l.x, l.y, range) ==> r == l
  {
    var q := Pull(l, px, py, range);
    q.(marked := l.marked || Collected(l, px, py, range, reach))
  }

  // ---------------------------------------------------------------------------
  // The player's progression over the stage

  /**
   * The player's experience, threshold, level and health as the stage goes,
   * with what the pickups did so far: level-ups, heals, and the experience
   * spent on thresholds.
   */
  datatype Haul = Haul(xp: real, threshold: int, level: int, hp: real, levelUps: nat, heals: nat, spent: real)

  /** The player record's own bounds on these fields. */
  predicate HaulOk(h: Haul, maxHp: real)
  {
    h.xp >= 0.0 && h.threshold >= 100 && h.level >= 1 && h.hp <= maxHp
  }

  /** The experience a piece of loot is worth: its value for experience, nothing for health. */
  function XpOf(l: Loot): real { if l.kind == XpLoot then l.value else 0.0 }

  /** The indicator a health pickup shows: 25, as a critical. */
  const HealIndicator := DamageIndicator(25, 1.0, false, true)

  /**
   * One collected piece of loot. Experience is added and may level the
   * player up once, spending the old threshold; health heals 25, capped.
   */
  function Absorb(h: Haul, l: Loot, maxHp: real): (r: Haul)
    requires HaulOk(h, maxHp) && l.value >= 0.0
    ensures HaulOk(r, maxHp)
    ensures r.level - r.levelUps == h.level - h.levelUps
    ensures r.xp + r.spent == h.xp + h.spent + XpOf(l)
    ensures h.levelUps <= r.levelUps <= h.levelUps + (if l.kind == XpLoot then 1 else 0)
    ensures r.spent >= h.spent + 100.0 * (r.levelUps - h.levelUps) as real
    ensures r.heals == h.heals + (if l.kind == HealthLoot then 1 else 0)
    ensures h.hp <= r.hp && (l.kind == XpLoot ==> r.hp == h.hp)
    ensures r.threshold >= h.threshold
  {
    if l.kind == XpLoot then
      var g := GainXp(h.xp, h.threshold, h.level, l.value);
      Haul(g.xp, g.threshold, g.level, h.hp, h.levelUps + (if g.leveledUp then 1 else 0), h.heals,
           h.spent + (if g.leveledUp then h.threshold as real else 0.0))
    else
      h.(hp := Heal(h.hp, maxHp), heals := h.heals + 1)
  }

  /** The progression after the collected pieces of `ls`, taken in order. */
  function HaulOf(ls: seq<Loot>, h0: Haul, px: real, py: real, range: real, reach: real, maxHp: real): (r: Haul)
    requires HaulOk(h0, maxHp) && LootOk(ls)
    ensures HaulOk(r, maxHp)
    decreases |ls|
  {
    if ls == [] then h0
    else
      var h := HaulOf(ls[..|ls| - 1], h0, px, py, range, reach, maxHp);
      var l := ls[|ls| - 1];
      if Collected(l, px, py, range, reach) then Absorb(h, l, maxHp) else h
  }

  /** The experience the collected pieces of `ls` are worth. */
  function XpCollected(ls: seq<Loot>, px: real, py: real, range: real, reach: real): real
    decreases |ls|
  {
    if ls == [] then 0.0
    else
      var l := ls[|ls| - 1];
      XpCollected(ls[..|ls| - 1], px, py, range, reach) + (if Collected(l, px, py, range, reach) then XpOf(l) else 0.0)
  }

  /** How many pieces of `ls` of kind `k` are collected. */
  function CollectedOf(ls: seq<Loot>, k: LootType, px: real, py: real, range: real, reach: real): nat
    decreases |ls|
  {
    if ls == [] then 0
    else
      var l := ls[|ls| - 1];
      CollectedOf(ls[..|ls| - 1], k, px, py, range, reach) + (if Collected(l, px, py, range, reach) && l.kind == k then 1 else 0)
  }

  /**
   * The books of the stage: every level-up is one level and spends at least
   * 100 experience, no experience is lost (what is left plus what was spent
   * is what there was plus what was collected), there are at most as many
   * level-ups as experience pickups, one heal per health pickup, and health
   * never drops.
   */
  lemma {:induction false} HaulBooks(ls: seq<Loot>, h0: Haul, px: real, py: real, range: real, reach: real, maxHp: real)
    requires HaulOk(h0, maxHp) && LootOk(ls)
    ensures var r := HaulOf(ls, h0, px, py, range, reach, maxHp);
      && r.levelUps >= h0.levelUps
      && r.level == h0.level + (r.levelUps - h0.levelUps)
      && r.xp + r.spent == h0.xp + h0.spent + XpCollected(ls, px, py, range, reach)
      && r.spent >= h0.spent + 100.0 * (r.levelUps - h0.levelUps) as real
      && r.levelUps - h0.levelUps <= CollectedOf(ls, XpLoot, px, py, range, reach)
      && r.heals == h0.heals + CollectedOf(ls, HealthLoot, px, py, range, reach)
      && h0.hp <= r.hp
      && r.threshold >= h0.threshold
  {
    if ls != [] {
      HaulBooks(ls[..|ls| - 1], h0, px, py, range, reach, maxHp);
    }
  }

  /**
   * Level-ups are paid for: starting from nothing spent, a hundred times the
   * level-ups never exceeds the experience held at the start plus the
   * experience collected.
   */
  lemma LevelUpsPaidFor(ls: seq<Loot>, xp: real, threshold: int, level: int, hp: real,
                        px: real, py: real, range: real, reach: real, maxHp: real)
    requires xp >= 0.0 && threshold >= 100 && level >= 1 && hp <= maxHp && LootOk(ls)
    ensures var r := HaulOf(ls, Haul(xp, threshold, level, hp, 0, 0, 0.0), px, py, range, reach, maxHp);
      100.0 * r.levelUps as real <= xp + XpCollected(ls, px, py, range, reach)
  {
    HaulBooks(ls, Haul(xp, threshold, level, hp, 0, 0, 0.0), px, py, range, reach, maxHp);
  }

  /** Taking one more piece: the prefix's progression, then that piece if it is collected. */
  lemma HaulStep(ls: seq<Loot>, i: nat, h0: Haul, px: real, py: real, range: real, reach: real, maxHp: real)
    requires HaulOk(h0, maxHp) && LootOk(ls) && i < |ls|
    ensures LootOk(ls[..i]) && LootOk(ls[..i + 1])
    ensures var h := HaulOf(ls[..i], h0, px, py, range, reach, maxHp);
      HaulOf(ls[..i + 1], h0, px, py, range, reach, maxHp)
        == if Collected(ls[i], px, py, range, reach) then Absorb(h, ls[i], maxHp) else h
  {
    assert ls[..i + 1][..i] == ls[..i];
  }

  // ---------------------------------------------------------------------------
  // The stage

  /**
   * One piece of loot in the stage's loop, on the player's fields `xp`,
   * `threshold`, `level` and `hp` (which `h` tracks): the piece is swept, and
   * when collected it is absorbed; `levelUp` and `heal` say whether it
   * reported a level-up or healed.
   */
  method PickUp(l: Loot, px: real, py: real, range: real, reach: real, maxHp: real,
                xp: real, threshold: int, level: int, hp: real, ghost h: Haul)
    returns (q: Loot, xp': real, threshold': int, level': int, hp': real, levelUp: bool, heal: bool)
    requires HaulOk(h, maxHp) && l.value >= 0.0
    requires xp == h.xp && threshold == h.threshold && level == h.level && hp == h.hp
    ensures q == Swept(l, px, py, range, reach)
    ensures var r := if Collected(l, px, py, range, reach) then Absorb(h, l, maxHp) else h;
      && xp' == r.xp && threshold' == r.threshold && level' == r.level && hp' == r.hp
      && (levelUp <==> r.levelUps == h.levelUps + 1) && (!levelUp ==> r.levelUps == h.levelUps)
      && (heal <==> r.heals == h.heals + 1) && (!heal ==> r.heals == h.heals)
  {
    q, xp', threshold', level', hp', levelUp, heal := l, xp, threshold, level, hp, false, false;
    if Near(px, py, l.x, l.y, range) {
      q := l.(x := l.x + (px - l.x) * 0.15, y := l.y + (py - l.y) * 0.15);
      if Near(px, py, l.x, l.y, reach) {
        q := q.(marked := true);
        if l.kind == XpLoot {
          xp' := xp + l.value;
          if xp' >= threshold as real {
            levelUp := true;
            xp' := xp' - threshold as real;
            threshold' := ((threshold as real) * 1.5).Floor;
            level' := level + 1;
          }
        } else {
          hp' := MinR(maxHp, hp + 25.0);
          heal := true;
        }
      }
    }
  }

  /**
   * The loop of `updateLoot` over the loot list `ls0`, on local copies of the
   * player's fields, the events and the indicators.
   */
  method Gather(ls0: seq<Loot>, px: real, py: real, range: real, reach: real, maxHp: real,
                xp0: real, threshold0: int, level0: int, hp0: real,
                evs0: seq<Event>, inds0: seq<DamageIndicator>)
    returns (ls: seq<Loot>, xp: real, threshold: int, level: int, hp: real,
             evs: seq<Event>, inds: seq<DamageIndicator>)
    requires LootOk(ls0) && HaulOk(Haul(xp0, threshold0, level0, hp0, 0, 0, 0.0), maxHp)
    ensures |ls| == |ls0|
    ensures forall j :: 0 <= j < |ls| ==> ls[j] == Swept(ls0[j], px, py, range, reach)
    ensures var h := HaulOf(ls0, Haul(xp0, threshold0, level0, hp0, 0, 0, 0.0), px, py, range, reach, maxHp);
      && xp == h.xp && threshold == h.threshold && level == h.level && hp == h.hp
      && evs == evs0 + Repeat(LevelUpReached, h.levelUps)
      && inds == inds0 + Repeat(HealIndicator, h.heals)
  {
    ghost var h0 := Haul(xp0, threshold0, level0, hp0, 0, 0, 0.0);
    ls := ls0;
    xp, threshold, level, hp := xp0, threshold0, level0, hp0;
    evs, inds := evs0, inds0;
    var i := 0;
    while i < |ls|
      invariant i <= |ls| == |ls0|
      invariant forall j :: 0 <= j < i ==> ls[j] == Swept(ls0[j], px, py, range, reach)
      invariant forall j :: i <= j < |ls| ==> ls[j] == ls0[j]
      invariant LootOk(ls0[..i])
      invariant var h := HaulOf(ls0[..i], h0, px, py, range, reach, maxHp);
        && xp == h.xp && threshold == h.threshold && level == h.level && hp == h.hp
        && evs == evs0 + Repeat(LevelUpReached, h.levelUps)
        && inds == inds0 + Repeat(HealIndicator, h.heals)
    {
      ghost var h := HaulOf(ls0[..i], h0, px, py, range, reach, maxHp);
      HaulStep(ls0, i, h0, px, py, range, reach, maxHp);
      var q, levelUp, heal;
      q, xp, threshold, level, hp, levelUp, heal := PickUp(ls[i], px, py, range, reach, maxHp, xp, threshold, level, hp, h);
      if levelUp {
        evs := evs + [LevelUpReached];
      }
      if heal {
        inds := inds + [HealIndicator];
      }
      ls := ls[i := q];
      i := i + 1;
    }
    assert ls0[..|ls0|] == ls0;
  }

  /**
   * `updateLoot`: each piece of loot in turn is swept; a collected experience
   * piece raises the player's experience and, on reaching the threshold,
   * reports a level-up once; a collected health piece heals and shows a 25.
   */
  method UpdateLoot(w: World)
    requires w.Valid()
    modifies w`loot, w`indicators, w`events, w.player`xp, w.player`xpToNextLevel, w.player`level, w.player`hp
    ensures w.Valid()
    ensures |w.loot| == |old(w.loot)|
    ensures forall j :: 0 <= j < |w.loot| ==>
      w.loot[j] == Swept(old(w.loot[j]), w.player.x, w.player.y, w.player.pickupRange, w.player.radius + 10.0)
    ensures var h := HaulOf(old(w.loot), Haul(old(w.player.xp), old(w.player.xpToNextLevel), old(w.player.level), old(w.player.hp), 0, 0, 0.0),
                            w.player.x, w.player.y, w.player.pickupRange, w.player.radius + 10.0, w.player.maxHp);
      && w.player.xp == h.xp && w.player.xpToNextLevel == h.threshold && w.player.level == h.level && w.player.hp == h.hp
      && w.events == old(w.events) + Repeat(LevelUpReached, h.levelUps)
      && w.indicators == old(w.indicators) + Repeat(HealIndicator, h.heals)
  {
    var p := w.player;
    var ls, xp, threshold, level, hp, evs, inds :=
      Gather(w.loot, p.x, p.y, p.pickupRange, p.radius + 10.0, p.maxHp, p.xp, p.xpToNextLevel, p.level, p.hp,
             w.events, w.indicators);
    assert LootOk(ls);
    w.PutLoot(ls);
    w.SetProgress(xp, threshold, level, hp);
    w.events, w.indicators := evs, inds;
  }
}
