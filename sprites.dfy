/**
 * Frame counts of the sprite sheets. The animation state machines advance
 * frame indices against these counts; everything else about the sheets
 * (images, widths) is presentation.
 */
module Sprites {
  import opened Types

  /** Frames of the player (knight) sheet for each state. */
  function KnightFrames(s: AnimState): (n: int)
    ensures n >= 1
  {
    match s
    case Idle => 11
    case Walk => 8
    case Attack => 7
    case Hurt => 4
    case Death => 11
  }

  /**
   * Frames of an enemy sheet: orc for `basic`, skeleton for `swarmer`,
   * wizard for `goliath`; the orc sheet is the fallback for every other kind.
   */
  function EnemyFrames(k: EnemyKind, s: AnimState): (n: int)
    ensures n >= 1
  {
    if k == Swarmer then
      match s
      case Walk => 10
      case Attack => 9
      case Hurt => 5
      case Death => 13
      case Idle => 10
    else if k == Goliath then
      match s
      case Walk => 8
      case Attack => 8
      case Hurt => 4
      case Death => 5
      case Idle => 8
    else
      match s
      case Walk => 8
      case Attack => 6
      case Hurt => 4
      case Death => 4
      case Idle => 8
  }
}
