/**
 * The player record of server.js and the pure parts of combat: creation at a
 * spawn point (`createPlayer`), the three attack hitboxes, the damage a hit
 * adds, the ledge-release velocities and the off-screen test.
 */
module Fighters {
  import opened Wrappers
  import opened Geometry
  import opened Catalog

  /** The two player ids, "player1" and "player2". */
  datatype Slot = P1 | P2

  function Other(s: Slot): (o: Slot)
    ensures o != s
  {
    if s == P1 then P2 else P1
  }

  /** Index into `match.scores` and `spawnPoints`. */
  function Index(s: Slot): (i: nat)
    ensures i < 2
    ensures i == 0 <==> s == P1
  {
    if s == P1 then 0 else 1
  }

  /** The order in which the server walks its players: insertion order of the `players` object. */
  const Slots: seq<Slot> := [P1, P2]

  /**
   * The per-player record the server keeps and broadcasts. `x`, `y` is the
   * top-left corner of the bounding box; `vx`, `vy` is the last velocity copied
   * from the physics body. Colour is not modelled.
   */
  datatype Player = Player(
    id: Slot, kind: CharType, width: real, height: real,
    moveSpeed: real, jumpStrength: real,
    x: real, y: real, vx: real, vy: real,
    isOnGround: bool, percentage: int, facing: int,
    isBasicAttacking: bool, isSpecialAttacking: bool, isGuarding: bool,
    isLedgeHanging: bool, ledgePlatform: Option<Rect>, ledgeDirection: int)

  /** The Matter.js body of a player as far as the server touches it: centre, velocity, static flag. */
  datatype Body = Body(x: real, y: real, vx: real, vy: real, isStatic: bool)

  /** The latest input a client sent; a missing client counts as nothing pressed. */
  datatype Input = Input(left: bool, right: bool, jump: bool, basicAttack: bool, specialAttack: bool, guard: bool)

  const NoInput := Input(false, false, false, false, false, false)

  /** What a successful `createPlayer` produces: the record and its body. */
  datatype Spawned = Spawned(player: Player, body: Body)

  /**
   * `createPlayer`: fails (null) when no stage is set or the stage has no spawn
   * point for the slot; otherwise a fresh player whose bounding box is centred
   * on the spawn point, at rest, facing the middle, with no damage and no
   * status, and a non-static body at the spawn point.
   */
  function CreatePlayer(stage: Option<Stage>, id: Slot, kind: CharType): (r: Option<Spawned>)
    ensures r.None? <==> stage.None? || Index(id) >= |stage.value.spawnPoints|
    ensures r.Some? ==>
      var p, b, sp := r.value.player, r.value.body, stage.value.spawnPoints[Index(id)];
      && p.id == id && p.kind == kind
      && p.width == PlayerWidth && p.height == PlayerHeight
      && p.moveSpeed == ProfileOf(kind).moveSpeed && p.jumpStrength == ProfileOf(kind).jumpStrength
      && p.x + p.width / 2.0 == sp.x && p.y + p.height / 2.0 == sp.y
      && b.x == sp.x && b.y == sp.y && !b.isStatic
      && p.vx == 0.0 && p.vy == 0.0 && b.vx == 0.0 && b.vy == 0.0
      && p.percentage == 0 && !p.isOnGround
      && p.facing == (if id == P1 then 1 else -1)
      && !p.isBasicAttacking && !p.isSpecialAttacking && !p.isGuarding
      && !p.isLedgeHanging && p.ledgePlatform.None? && p.ledgeDirection == 0
  {
    if stage.None? then None
    else
      var i := Index(id);
      if i >= |stage.value.spawnPoints| then None
      else
        var sp := stage.value.spawnPoints[i];
        var prof := ProfileOf(kind);
        var p := Player(id, kind, PlayerWidth, PlayerHeight, prof.moveSpeed, prof.jumpStrength,
                        sp.x - PlayerWidth / 2.0, sp.y - PlayerHeight / 2.0, 0.0, 0.0,
                        false, 0, if i == 0 then 1 else -1,
                        false, false, false, false, None, 0);
        Some(Spawned(p, Body(sp.x, sp.y, 0.0, 0.0, false)))
  }

  /** The bounding box a hitbox is checked against (the record's position, not the body's). */
  function Box(p: Player): Rect {
    Rect(p.x, p.y, p.width, p.height)
  }

  /**
   * The basic-attack hitbox: as tall as the attacker, `basicRange` wide, and
   * flush against the side the attacker faces.
   */
  function BasicAttackBox(p: Player): (r: Rect)
    ensures r.y == p.y && r.height == p.height && r.width == ProfileOf(p.kind).basicRange
    ensures p.facing == 1 ==> r.x == p.x + p.width
    ensures p.facing != 1 ==> r.x + r.width == p.x
  {
    var range := ProfileOf(p.kind).basicRange;
    Rect(if p.facing == 1 then p.x + p.width else p.x - range, p.y, range, p.height)
  }

  /**
   * The ground-pound area: starts at the attacker's feet, reaches 40 beyond
   * each side and 60 down, whatever way the attacker faces.
   */
  function GroundPoundArea(p: Player): (r: Rect)
    ensures r.y == p.y + p.height && r.height == GroundPoundDepth
    ensures r.x + GroundPoundReach == p.x && r.x + r.width == p.x + p.width + GroundPoundReach
  {
    Rect(p.x - GroundPoundReach, p.y + p.height, p.width + 2.0 * GroundPoundReach, GroundPoundDepth)
  }

  /**
   * The dash-special hitbox, `specialRange` wide and as tall as the attacker.
   * Facing right it starts at the attacker's LEFT edge (so it covers the
   * attacker itself); facing left it ends at the attacker's left edge.
   */
  function DashArea(p: Player): (r: Rect)
    ensures r.y == p.y && r.height == p.height && r.width == ProfileOf(p.kind).specialRange
    ensures p.facing == 1 ==> r.x == p.x
    ensures p.facing != 1 ==> r.x + r.width == p.x
  {
    var range := ProfileOf(p.kind).specialRange;
    Rect(if p.facing == 1 then p.x else p.x - range, p.y, range, p.height)
  }

  predicate BasicHits(attacker: Player, target: Player) {
    CheckCollision(Some(BasicAttackBox(attacker)), Some(Box(target)))
  }

  predicate DashHits(attacker: Player, target: Player) {
    CheckCollision(Some(DashArea(attacker)), Some(Box(target)))
  }

  predicate GroundPoundHits(attacker: Player, target: Player) {
    CheckCollision(Some(GroundPoundArea(attacker)), Some(Box(target)))
  }

  /** The same scene reflected about x = 0: positions mirrored, facing reversed. */
  function MirrorPlayer(p: Player): (q: Player)
    ensures Box(q) == Mirror(Box(p)) && q.facing == -p.facing
  {
    p.(x := -(p.x + p.width), facing := -p.facing)
  }

  /** The basic attack reaches the same distance to the left as to the right. */
  lemma {:induction false} BasicAttackMirrorSymmetric(attacker: Player, target: Player)
    requires attacker.facing == 1 || attacker.facing == -1
    ensures BasicHits(MirrorPlayer(attacker), MirrorPlayer(target)) == BasicHits(attacker, target)
  {
    assert BasicAttackBox(MirrorPlayer(attacker)) == Mirror(BasicAttackBox(attacker));
    MirrorKeepsCollision(BasicAttackBox(attacker), Box(target));
  }

  /**
   * The dash special does not: a target 15 units in front of a right-facing
   * attacker is missed, while the mirrored scene is a hit.
   */
  lemma DashAttackLopsided()
    ensures
      var attacker := Player(P2, BlueNinja, 50.0, 50.0, 7.5, 14.0, 0.0, 0.0, 0.0, 0.0,
                             true, 0, 1, false, false, false, false, None, 0);
      var target := attacker.(id := P1, x := 65.0, facing := -1);
      !DashHits(attacker, target) && DashHits(MirrorPlayer(attacker), MirrorPlayer(target))
  {
  }

  /**
   * What a landed hit does to the target's percentage: nothing while the
   * target guards, otherwise exactly the attack's damage; nothing else of the
   * record changes (the knockback goes to the physics body).
   */
  function ApplyHit(target: Player, damage: int): (q: Player)
    requires damage >= 0
    ensures q == target.(percentage := q.percentage)
    ensures target.isGuarding ==> q.percentage == target.percentage
    ensures !target.isGuarding ==> q.percentage == target.percentage + damage
    ensures q.percentage >= target.percentage
  {
    if target.isGuarding then target else target.(percentage := target.percentage + damage)
  }

  datatype Velocity = Velocity(vx: real, vy: real)

  /**
   * The velocity `releaseLedgeGrab` gives the body: direction > 0 ("climb")
   * goes up fast and along the facing, direction < 0 goes up a little and
   * against the facing, direction 0 ("let go") drops straight down.
   */
  function ReleaseVelocity(direction: int, facing: int): (v: Velocity)
    ensures direction > 0 ==> v == Velocity(facing as real * 4.0, -JumpVelocity * 0.8)
    ensures direction < 0 ==> v == Velocity(-(facing as real) * 6.0, -4.0)
    ensures direction == 0 ==> v == Velocity(0.0, 2.0)
    ensures direction != 0 ==> v.vy < 0.0
    ensures direction > 0 ==> v.vx * (facing as real) >= 0.0
    ensures direction < 0 ==> v.vx * (facing as real) <= 0.0
  {
    if direction > 0 then Velocity(facing as real * 4.0, -JumpVelocity * 0.8)
    else if direction < 0 then Velocity(-(facing as real) * 6.0, -4.0)
    else Velocity(0.0, 2.0)
  }

  /** The record after `releaseLedgeGrab`: no longer hanging, no platform, direction 0. */
  function Released(p: Player): (q: Player)
    ensures !q.isLedgeHanging && q.ledgePlatform.None? && q.ledgeDirection == 0
    ensures q.(isLedgeHanging := p.isLedgeHanging, ledgePlatform := p.ledgePlatform, ledgeDirection := p.ledgeDirection) == p
  {
    p.(isLedgeHanging := false, ledgePlatform := None, ledgeDirection := 0)
  }

  /** The body after `releaseLedgeGrab`: dynamic again, moving with the release velocity. */
  function ReleasedBody(b: Body, direction: int, facing: int): (c: Body)
    ensures !c.isStatic && c.x == b.x && c.y == b.y
    ensures Velocity(c.vx, c.vy) == ReleaseVelocity(direction, facing)
  {
    var v := ReleaseVelocity(direction, facing);
    b.(isStatic := false, vx := v.vx, vy := v.vy)
  }

  /** The KO test: below the arena, or wholly past its left or right side, by more than the margin. */
  predicate OffScreen(p: Player) {
    p.y > GameHeight + OffScreenThreshold
    || p.x + p.width < 0.0 - OffScreenThreshold
    || p.x > GameWidth + OffScreenThreshold
  }

  /** The player the win check rounds on: the first one, in server order, that is off screen. */
  function FirstOffScreen(players: map<Slot, Player>): (r: Option<Slot>)
    ensures r.Some? ==> r.value in players && OffScreen(players[r.value])
    ensures r == Some(P2) ==> !(P1 in players && OffScreen(players[P1]))
    ensures r.None? <==> forall s | s in players :: !OffScreen(players[s])
  {
    assert forall s | s in players :: s == P1 || s == P2;
    if P1 in players && OffScreen(players[P1]) then Some(P1)
    else if P2 in players && OffScreen(players[P2]) then Some(P2)
    else None
  }
}
