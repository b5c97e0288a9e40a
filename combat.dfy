/**
 * The pure rules the frame loop applies: damage after armour, ability
 * timings, how a hit changes an enemy, the player and enemy animation state
 * machines, XP gain with level-up, healing and loot drops.
 */
module Combat {
  import opened Types
  import opened Util
  import opened Sprites

  /** The squared distance between two points. */
  function DistSq(ax: real, ay: real, bx: real, bY: real): (d: real)
    ensures d >= 0.0
  {
    (ax - bx) * (ax - bx) + (ay - bY) * (ay - bY)
  }

  /** `Math.hypot(ax - bx, ay - by) < r` for a non-negative radius, stated exactly with squares. */
  predicate Within(ax: real, ay: real, bx: real, bY: real, r: real)
  {
    DistSq(ax, ay, bx, bY) < r * r
  }

  /** `Math.hypot(ax - bx, ay - by) < r` for any `r`: no distance is below a radius that is not positive. */
  predicate Near(ax: real, ay: real, bx: real, bY: real, r: real)
  {
    r > 0.0 && Within(ax, ay, bx, bY, r)
  }

  /** Net damage after flat armour: never below one point. */
  function ArmorDamage(dmg: real, armor: real): (r: real)
    ensures r >= 1.0 && r >= dmg - armor
    ensures r == 1.0 || r == dmg - armor
  {
    MaxR(1.0, dmg - armor)
  }

  /** Frames an ability stays active once triggered. */
  function AbilityDuration(a: AbilityType): (n: int)
    ensures n > 0
  {
    match a
    case Dash => 15
    case Shield => 180
    case Nova => 10
  }

  predicate DashActive(a: AbilityType, activeTimer: int) { a == Dash && activeTimer > 0 }

  predicate ShieldActive(a: AbilityType, activeTimer: int) { a == Shield && activeTimer > 0 }

  /** A frame counter that only counts down while positive. */
  function TickDown(t: int): (r: int)
    ensures t > 0 ==> r == t - 1
    ensures t <= 0 ==> r == t
    ensures t >= 0 ==> r >= 0
  {
    if t > 0 then t - 1 else t
  }

  /** The same for a fractional counter: it stops in (-1, 0]. */
  function TickDownReal(t: real): (r: real)
    ensures t > 0.0 ==> r == t - 1.0
    ensures t <= 0.0 ==> r == t
    ensures t > -1.0 ==> r > -1.0
    ensures r <= t
  {
    if t > 0.0 then t - 1.0 else t
  }

  /** What holds of every enemy between updates. */
  ghost predicate EnemyOk(e: Enemy)
  {
    && e.state != Idle
    && 0 <= e.frame < EnemyFrames(e.kind, e.state)
    && 0 <= e.frameTimer <= 5
    && (e.state == Death ==> IsAnimated(e.kind))
    && (IsAnimated(e.kind) ==> (e.hp <= 0.0 <==> e.state == Death))
    && (!IsAnimated(e.kind) ==> e.state == Walk && e.frame == 0)
    && (e.rewardsProcessed ==> e.hp <= 0.0)
    && e.value >= 0.0 && e.damage >= 0.0
    && 0.0 <= e.knockbackResist <= 1.0
  }

  /**
   * An enemy takes `dmg`. An animated enemy that drops to zero enters its
   * death animation once; one that survives enters its hurt animation, where
   * `restartHurt` (nova, lightning) restarts an ongoing hurt animation and
   * otherwise (projectile, melee tick, fire zone) an ongoing one continues.
   */
  function DamageEnemy(e: Enemy, dmg: real, restartHurt: bool): (r: Enemy)
    ensures r.hp == e.hp - dmg
    ensures r == e.(hp := r.hp, state := r.state, frame := r.frame)
    ensures IsAnimated(e.kind) && r.hp <= 0.0 ==> r.state == Death
    ensures IsAnimated(e.kind) && r.hp > 0.0 && e.state != Death ==> r.state == Hurt
    ensures !IsAnimated(e.kind) ==> r == e.(hp := r.hp)
    ensures e.state == Death && r.hp <= 0.0 ==> r == e.(hp := r.hp)
    ensures EnemyOk(e) && dmg >= 0.0 ==> EnemyOk(r)
  {
    var hp := e.hp - dmg;
    if !IsAnimated(e.kind) then e.(hp := hp)
    else if hp > 0.0 && (restartHurt || e.state != Hurt) then e.(hp := hp, state := Hurt, frame := 0)
    else if hp <= 0.0 && e.state != Death then e.(hp := hp, state := Death, frame := 0)
    else e.(hp := hp)
  }

  /**
   * `e` is `e0` after some hits: the same kind of enemy in the same place,
   * with the same maximum and no more health (its animation and its
   * velocity, a knockback, may differ).
   */
  predicate Worn(e0: Enemy, e: Enemy)
  {
    e.kind == e0.kind && e.x == e0.x && e.y == e0.y && e.maxHp == e0.maxHp && e.hp <= e0.hp
  }

  /** Every enemy of `es` is the one at the same place in `es0`, worn. */
  ghost predicate Wears(es0: seq<Enemy>, es: seq<Enemy>)
  {
    |es| == |es0| && forall j :: 0 <= j < |es| ==> Worn(es0[j], es[j])
  }

  /** Wear adds up: two stretches of hits are one. */
  lemma WearsTrans(es0: seq<Enemy>, es1: seq<Enemy>, es2: seq<Enemy>)
    requires Wears(es0, es1) && Wears(es1, es2)
    ensures Wears(es0, es2)
  {
    forall j | 0 <= j < |es2|
      ensures Worn(es0[j], es2[j])
    {
      assert Worn(es0[j], es1[j]) && Worn(es1[j], es2[j]);
    }
  }

  lemma WearsRefl(es: seq<Enemy>)
    ensures Wears(es, es)
  {
  }

  /** A hit for a non-negative amount wears the enemy. */
  lemma DamageWears(e: Enemy, dmg: real, restartHurt: bool)
    requires dmg >= 0.0
    ensures Worn(e, DamageEnemy(e, dmg, restartHurt))
  {
  }

  /** An animation position: state, frame index and the frame timer. */
  datatype Anim = Anim(state: AnimState, frame: int, timer: int)

  predicate PlayerAnimOk(a: Anim)
  {
    0 <= a.frame < KnightFrames(a.state) && 0 <= a.timer <= 5
  }

  /**
   * One frame of the player's animation: death has priority and is entered
   * once; hurt and attack play to their last frame and fall back to idle;
   * otherwise the player walks while moving and idles when not.
   */
  function PlayerAnimStep(a: Anim, hp: real, moving: bool): (r: Anim)
    ensures PlayerAnimOk(a) ==> PlayerAnimOk(r)
    ensures hp <= 0.0 ==> r.state == Death
    ensures a.state == Death ==> r.state == Death && r.frame >= a.frame
    ensures (a.state == Hurt || a.state == Attack) && hp > 0.0 && r.state != a.state ==> r == Anim(Idle, 0, 0)
    ensures (a.state == Idle || a.state == Walk) && hp > 0.0 ==> r.state == (if moving then Walk else Idle)
  {
    var t := a.timer + 1;
    var a1 := if hp <= 0.0 && a.state != Death then Anim(Death, 0, t) else a.(timer := t);
    match a1.state
    case Death =>
      if t > 5 then Anim(Death, if a1.frame < KnightFrames(Death) - 1 then a1.frame + 1 else a1.frame, 0) else a1
    case Hurt =>
      if t > 5 then (if a1.frame < KnightFrames(Hurt) - 1 then Anim(Hurt, a1.frame + 1, 0) else Anim(Idle, 0, 0)) else a1
    case Attack =>
      if t > 4 then (if a1.frame < KnightFrames(Attack) - 1 then Anim(Attack, a1.frame + 1, 0) else Anim(Idle, 0, 0)) else a1
    case _ =>
      var s := if moving then Walk else Idle;
      var a2 := if a1.state != s then Anim(s, 0, t) else a1;
      if t > 5 then Anim(s, (a2.frame + 1) % KnightFrames(s), 0) else a2
  }

  /** The player's animation after `n` frames at the same health and input. */
  function AnimAfter(a: Anim, n: nat, hp: real, moving: bool): Anim
    decreases n
  {
    if n == 0 then a else AnimAfter(PlayerAnimStep(a, hp, moving), n - 1, hp, moving)
  }

  /** Frames of the hurt animation still to play from frame `frame` with its timer at `timer`: six per frame. */
  function HurtLeft(frame: int, timer: int): int
  {
    (KnightFrames(Hurt) - 1 - frame) * 6 + 6 - timer
  }

  /**
   * The hurt animation ends: a living player who is hurt stays hurt for
   * exactly the frames left on the sheet, six per frame, and is then idle at
   * frame 0. From the last frame that is within six frames.
   */
  lemma {:induction false} PlayerHurtRecovers(frame: int, timer: int, hp: real, moving: bool)
    requires hp > 0.0 && 0 <= frame < KnightFrames(Hurt) && 0 <= timer <= 5
    ensures HurtLeft(frame, timer) >= 1
    ensures AnimAfter(Anim(Hurt, frame, timer), HurtLeft(frame, timer), hp, moving) == Anim(Idle, 0, 0)
    ensures forall n :: 0 <= n < HurtLeft(frame, timer) ==> AnimAfter(Anim(Hurt, frame, timer), n, hp, moving).state == Hurt
    decreases HurtLeft(frame, timer)
  {
    var a := Anim(Hurt, frame, timer);
    var b := PlayerAnimStep(a, hp, moving);
    var left := HurtLeft(frame, timer);
    assert AnimAfter(a, left, hp, moving) == AnimAfter(b, left - 1, hp, moving);
    if timer == 5 && frame == KnightFrames(Hurt) - 1 {
      assert b == Anim(Idle, 0, 0) && left == 1;
    } else {
      var next := if timer < 5 then Anim(Hurt, frame, timer + 1) else Anim(Hurt, frame + 1, 0);
      assert b == next;
      assert HurtLeft(next.frame, next.timer) == left - 1;
      PlayerHurtRecovers(next.frame, next.timer, hp, moving);
      forall n | 0 <= n < left
        ensures AnimAfter(a, n, hp, moving).state == Hurt
      {
        if n > 0 {
          assert AnimAfter(a, n, hp, moving) == AnimAfter(b, n - 1, hp, moving);
        }
      }
    }
  }

  /** The result of one animation frame of an animated enemy. */
  datatype EnemyAnimStep = EnemyAnimStep(anim: Anim, finished: bool)

  /**
   * One frame of an animated enemy's state machine (after its frame timer
   * advanced): death plays once and then finishes; hurt falls back to walk;
   * attack plays its frames twice as fast and falls back to walk; walk cycles
   * and switches to attack when the player is `near`.
   */
  function EnemyAnimNext(k: EnemyKind, a: Anim, near: bool): (r: EnemyAnimStep)
  {
    var t := a.timer + 1;
    match a.state
    case Death =>
      if t > 5 then
        (if a.frame < EnemyFrames(k, Death) - 1 then EnemyAnimStep(Anim(Death, a.frame + 1, 0), false)
         else EnemyAnimStep(Anim(Death, a.frame, 0), true))
      else EnemyAnimStep(a.(timer := t), false)
    case Hurt =>
      if t > 5 then
        (if a.frame < EnemyFrames(k, Hurt) - 1 then EnemyAnimStep(Anim(Hurt, a.frame + 1, 0), false)
         else EnemyAnimStep(Anim(Walk, 0, 0), false))
      else EnemyAnimStep(a.(timer := t), false)
    case Attack =>
      if t > 2 then
        (if a.frame < EnemyFrames(k, Attack) - 1 then EnemyAnimStep(Anim(Attack, a.frame + 1, 0), false)
         else EnemyAnimStep(Anim(Walk, 0, 0), false))
      else EnemyAnimStep(a.(timer := t), false)
    case Walk =>
      if t > 5 then
        (if near then EnemyAnimStep(Anim(Attack, 0, 0), false)
         else EnemyAnimStep(Anim(Walk, (a.frame + 1) % EnemyFrames(k, Walk), 0), false))
      else EnemyAnimStep(a.(timer := t), false)
    case Idle => EnemyAnimStep(a.(timer := t), false)
  }

  predicate EnemyAnimOk(k: EnemyKind, a: Anim)
  {
    a.state != Idle && 0 <= a.frame < EnemyFrames(k, a.state) && 0 <= a.timer <= 5
  }

  /** The attack lands once per attack animation: on its middle frame, on the first timer tick there. */
  predicate AttackLands(k: EnemyKind, a: Anim)
  {
    a.state == Attack && a.frame == EnemyFrames(k, Attack) / 2 && a.timer + 1 == 1
  }

  /**
   * The enemy machine keeps frames and timers in range; death is terminal and
   * finishes only from its last frame; hurt and attack only fall back to walk;
   * walk switches to attack only when the player is near.
   */
  lemma EnemyAnimTransitions(k: EnemyKind, a: Anim, near: bool)
    requires EnemyAnimOk(k, a)
    ensures var r := EnemyAnimNext(k, a, near);
      && EnemyAnimOk(k, r.anim)
      && (a.state == Death <==> r.anim.state == Death)
      && (r.finished ==> a.state == Death && a.frame == EnemyFrames(k, Death) - 1)
      && (r.anim.state != a.state ==> r.anim.frame == 0)
      && (a.state == Walk && r.anim.state == Attack ==> near)
      && (a.state == Hurt || a.state == Attack ==> r.anim.state == a.state || r.anim.state == Walk)
  {
  }

  /** Whether the death animation, stepped frame by frame, finishes within n frames. */
  predicate DeathFinishesWithin(k: EnemyKind, a: Anim, n: nat)
    decreases n
  {
    n > 0 && (EnemyAnimNext(k, a, false).finished || DeathFinishesWithin(k, EnemyAnimNext(k, a, false).anim, n - 1))
  }

  /**
   * Liveness of the death animation: from any position in it, the enemy is
   * finished (and so marked for removal) within 6 frames per remaining sprite frame.
   */
  lemma {:induction false} DeathAnimationEnds(k: EnemyKind, frame: int, timer: int)
    requires 0 <= frame < EnemyFrames(k, Death) && 0 <= timer <= 5
    ensures DeathFinishesWithin(k, Anim(Death, frame, timer), 6 * (EnemyFrames(k, Death) - frame) - timer)
    decreases EnemyFrames(k, Death) - frame, 5 - timer
  {
    var n := 6 * (EnemyFrames(k, Death) - frame) - timer;
    var r := EnemyAnimNext(k, Anim(Death, frame, timer), false);
    if timer == 5 {
      if frame < EnemyFrames(k, Death) - 1 {
        DeathAnimationEnds(k, frame + 1, 0);
        assert r.anim == Anim(Death, frame + 1, 0);
        assert n - 1 == 6 * (EnemyFrames(k, Death) - (frame + 1));
      } else {
        assert r.finished;
      }
    } else {
      DeathAnimationEnds(k, frame, timer + 1);
      assert r.anim == Anim(Death, frame, timer + 1);
    }
  }

  /** The outcome of collecting XP: at most one level-up per pickup. */
  datatype Progress = Progress(xp: real, threshold: int, level: int, leveledUp: bool)

  /**
   * An XP pickup: the value is added; reaching the threshold levels up once,
   * spending the old threshold and growing it by half (floored).
   */
  function GainXp(xp: real, threshold: int, level: int, value: real): (r: Progress)
    requires threshold >= 100 && xp >= 0.0 && value >= 0.0
    ensures r.leveledUp <==> xp + value >= threshold as real
    ensures r.xp + (if r.leveledUp then threshold as real else 0.0) == xp + value
    ensures r.xp >= 0.0
    ensures r.level == level + (if r.leveledUp then 1 else 0)
    ensures r.leveledUp ==> r.threshold as real <= (threshold as real) * 1.5 < r.threshold as real + 1.0
    ensures !r.leveledUp ==> r.threshold == threshold
    ensures r.threshold >= threshold
  {
    var x := xp + value;
    if x >= threshold as real then Progress(x - threshold as real, ((threshold as real) * 1.5).Floor, level + 1, true)
    else Progress(x, threshold, level, false)
  }

  /**
   * Levels are carried over, not lost: when one pickup leaves XP at or above
   * the new threshold, the next pickup levels up again.
   */
  lemma CarriedOverLevel(xp: real, threshold: int, level: int, v1: real, v2: real)
    requires threshold >= 100 && xp >= 0.0 && v1 >= 0.0 && v2 >= 0.0
    requires var r := GainXp(xp, threshold, level, v1); r.xp >= r.threshold as real
    ensures var r := GainXp(xp, threshold, level, v1);
            GainXp(r.xp, r.threshold, r.level, v2).leveledUp && GainXp(r.xp, r.threshold, r.level, v2).level == level + 2
  {
  }

  /** A health pickup heals 25, capped at the maximum. */
  function Heal(hp: real, maxHp: real): (r: real)
    requires hp <= maxHp
    ensures hp <= r <= maxHp
    ensures r == maxHp || r == hp + 25.0
  {
    MinR(maxHp, hp + 25.0)
  }

  /** Chance that a dying enemy drops health instead of XP. */
  function HealthDropChance(k: EnemyKind): (c: real)
    ensures 0.0 < c <= 1.0
    ensures k == Boss <==> c == 1.0
  {
    if k == Boss then 1.0 else if k == Goliath then 0.1 else 0.005
  }

  /** The loot a dying enemy drops at its position for a roll in [0, 1). */
  function DeathLoot(e: Enemy, xpMultiplier: real, roll: real): (l: Loot)
    requires 0.0 <= roll < 1.0
    ensures l.x == e.x && l.y == e.y && !l.marked
    ensures l.value == e.value * xpMultiplier
    ensures e.kind == Boss ==> l.kind == HealthLoot
    ensures (e.kind == Basic || e.kind == Swarmer || e.kind == Rusher) && roll >= 0.005 ==> l.kind == XpLoot
  {
    var kind := if roll < HealthDropChance(e.kind) then HealthLoot else XpLoot;
    Loot(e.x, e.y, if kind == HealthLoot then 8.0 else 4.0, e.value * xpMultiplier, kind, false)
  }
}
