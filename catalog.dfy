/**
 * The fixed tables of the game: arena size and tuning constants, the two
 * character profiles and the four stage layouts (server.js lines 6-38).
 * Colours, stage names shown to clients and background colours are not
 * modelled.
 */
module Catalog {
  import opened Geometry

  const GameWidth: real := 800.0
  const GameHeight: real := 600.0
  const JumpVelocity: real := 16.0
  const GroundFriction: real := 0.9

  /** Ability durations and cooldowns, in milliseconds. */
  const BasicAttackDuration: int := 150
  const BasicAttackCooldown: int := 300
  const SpecialAttackDuration: int := 250
  const SpecialAttackCooldown: int := 500
  const GuardDuration: int := 200
  const GuardCooldown: int := 400

  const LedgeGrabRange: real := 25.0
  const LedgeGrabDuration: int := 3000

  const RoundsToWinMatch: int := 2
  const OffScreenThreshold: real := 150.0

  const PlayerWidth: real := 50.0
  const PlayerHeight: real := 50.0

  /** Dash speed of the dash special and its small upward kick. */
  const DashSpeed: real := 12.0
  const DashLift: real := -2.0

  /** Size of the ground-pound area beyond the attacker's sides, and its depth. */
  const GroundPoundReach: real := 40.0
  const GroundPoundDepth: real := 60.0

  datatype CharType = RedKnight | BlueNinja

  /**
   * One character's row of `characterTypes` and of `characterAttacks`.
   * Knockback and guard reduction are carried for completeness; only the
   * knockback force (not modelled) would read them.
   */
  datatype Profile = Profile(
    moveSpeed: real, jumpStrength: real, gravityMultiplier: real,
    basicDamage: int, basicRange: real, basicKnockback: real,
    specialDamage: int, specialRange: real, specialKnockback: real,
    guardReduction: real)

  function ProfileOf(t: CharType): (p: Profile)
    ensures p.basicDamage > 0 && p.specialDamage > p.basicDamage
    ensures p.basicRange > 0.0 && p.specialRange > p.basicRange
  {
    match t
    case RedKnight => Profile(6.0, 12.0, 1.0, 7, 60.0, 1.2, 12, 80.0, 1.5, 0.5)
    case BlueNinja => Profile(7.5, 14.0, 0.95, 4, 40.0, 0.8, 8, 60.0, 1.0, 0.8)
  }

  /** A stage: its platforms in list order and its spawn points (slot 0, slot 1). */
  datatype Stage = Stage(platforms: seq<Rect>, spawnPoints: seq<Point>)

  /** A stage on which `createPlayer` succeeds for both slots. */
  predicate Playable(st: Stage) {
    |st.spawnPoints| >= 2
  }

  /** "stage1" .. "stage4", in the order of `stageKeys`. */
  const Stages: seq<Stage> := [
    // Center Platform
    Stage([Rect(GameWidth * 0.2, GameHeight - 50.0, GameWidth * 0.6, 50.0)],
          [Point(GameWidth / 4.0, GameHeight - 150.0), Point(GameWidth * 3.0 / 4.0, GameHeight - 150.0)]),
    // Dual Platforms
    Stage([Rect(GameWidth * 0.1, GameHeight - 150.0, GameWidth * 0.3, 30.0),
           Rect(GameWidth * 0.6, GameHeight - 150.0, GameWidth * 0.3, 30.0)],
          [Point(GameWidth * 0.25, GameHeight - 250.0), Point(GameWidth * 0.75, GameHeight - 250.0)]),
    // Sky Bridges
    Stage([Rect(GameWidth * 0.35, GameHeight - 80.0, GameWidth * 0.3, 40.0),
           Rect(GameWidth * 0.05, GameHeight - 200.0, GameWidth * 0.2, 25.0),
           Rect(GameWidth * 0.1, GameHeight - 320.0, GameWidth * 0.15, 25.0),
           Rect(GameWidth * 0.75, GameHeight - 200.0, GameWidth * 0.2, 25.0),
           Rect(GameWidth * 0.75, GameHeight - 320.0, GameWidth * 0.15, 25.0),
           Rect(GameWidth * 0.4, GameHeight - 400.0, GameWidth * 0.2, 20.0)],
          [Point(GameWidth * 0.15, GameHeight - 300.0), Point(GameWidth * 0.82, GameHeight - 300.0)]),
    // Arena Walls
    Stage([Rect(GameWidth * 0.15, GameHeight - 50.0, GameWidth * 0.7, 50.0),
           Rect(GameWidth * 0.05, GameHeight - 300.0, 30.0, 250.0),
           Rect(GameWidth * 0.915, GameHeight - 300.0, 30.0, 250.0),
           Rect(GameWidth * 0.08, GameHeight - 180.0, 80.0, 20.0),
           Rect(GameWidth * 0.84, GameHeight - 180.0, 80.0, 20.0)],
          [Point(GameWidth * 0.25, GameHeight - 150.0), Point(GameWidth * 0.75, GameHeight - 150.0)])
  ]

  /** Every catalogue stage has both spawn points and only platforms with area. */
  lemma CatalogWellFormed(k: nat)
    requires k < |Stages|
    ensures |Stages[k].spawnPoints| == 2 && Playable(Stages[k])
    ensures forall i | 0 <= i < |Stages[k].platforms| :: HasArea(Stages[k].platforms[i])
  {
  }
}
