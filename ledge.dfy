/**
 * Ledge-grab detection (server.js `checkLedgeGrab`): a falling, airborne,
 * not-yet-hanging player whose feet are level with a platform's top band and
 * whose side is near one of the platform's vertical edges snaps to an anchor
 * just outside that edge. Platforms are scanned in list order and the first
 * one that qualifies wins; on one platform the left edge is tried first.
 */
module Ledge {
  import opened Wrappers
  import opened Geometry
  import opened Catalog
  import opened Fighters

  /** The grabbed platform, the side (1: its left edge, -1: its right edge) and the anchor corner. */
  datatype LedgeGrab = LedgeGrab(platform: Rect, direction: int, x: real, y: real)

  function Abs(r: real): real {
    if r < 0.0 then -r else r
  }

  /** The player's bottom edge is below the platform top, by less than its height plus the grab range. */
  predicate FeetInBand(p: Player, plat: Rect) {
    var bottom := p.y + p.height;
    bottom > plat.y && bottom < plat.y + plat.height + LedgeGrabRange
  }

  /** Coming from the left: the player's right side is within range of the platform's left edge. */
  predicate NearLeftEdge(p: Player, plat: Rect) {
    Abs((p.x + p.width) - plat.x) < LedgeGrabRange && p.x < plat.x
  }

  /** Coming from the right: the player's left side is within range of the platform's right edge. */
  predicate NearRightEdge(p: Player, plat: Rect) {
    Abs(p.x - (plat.x + plat.width)) < LedgeGrabRange && p.x + p.width > plat.x + plat.width
  }

  /**
   * The grab one platform offers. The anchor puts the player's right edge on
   * the platform's left edge (direction 1) or its left edge on the platform's
   * right edge (direction -1), level with the platform's top.
   */
  function GrabAt(p: Player, plat: Rect): (g: Option<LedgeGrab>)
    ensures g.Some? <==> FeetInBand(p, plat) && (NearLeftEdge(p, plat) || NearRightEdge(p, plat))
    ensures g.Some? ==> g.value.platform == plat && g.value.y == plat.y
    ensures g.Some? ==> (g.value.direction == 1 <==> NearLeftEdge(p, plat))
    ensures g.Some? ==> g.value.direction == 1 || g.value.direction == -1
    ensures g.Some? && g.value.direction == 1 ==> g.value.x + p.width == plat.x
    ensures g.Some? && g.value.direction == -1 ==> g.value.x == plat.x + plat.width
  {
    if !FeetInBand(p, plat) then None
    else if NearLeftEdge(p, plat) then Some(LedgeGrab(plat, 1, plat.x - p.width, plat.y))
    else if NearRightEdge(p, plat) then Some(LedgeGrab(plat, -1, plat.x + plat.width, plat.y))
    else None
  }

  /** The scan over the platform list: the grab of the first platform that offers one. */
  function FirstGrab(p: Player, plats: seq<Rect>): (g: Option<LedgeGrab>)
    ensures g.None? <==> forall i | 0 <= i < |plats| :: GrabAt(p, plats[i]).None?
    ensures g.Some? ==> g.value.direction == 1 || g.value.direction == -1
    ensures g.Some? ==> exists i | 0 <= i < |plats| ::
      g == GrabAt(p, plats[i]) && forall j | 0 <= j < i :: GrabAt(p, plats[j]).None?
    decreases |plats|
  {
    if plats == [] then None
    else if GrabAt(p, plats[0]).Some? then GrabAt(p, plats[0])
    else
      var r := FirstGrab(p, plats[1..]);
      assert r.Some? ==> exists i | 0 <= i < |plats| ::
        r == GrabAt(p, plats[i]) && forall j | 0 <= j < i :: GrabAt(p, plats[j]).None? by {
        if r.Some? {
          var k :| 0 <= k < |plats[1..]| && r == GrabAt(p, plats[1..][k])
                   && forall j | 0 <= j < k :: GrabAt(p, plats[1..][j]).None?;
          assert r == GrabAt(p, plats[k + 1]);
          assert forall j | 0 <= j < k + 1 :: GrabAt(p, plats[j]).None? by {
            forall j | 0 <= j < k + 1 ensures GrabAt(p, plats[j]).None? {
              if j > 0 { assert plats[j] == plats[1..][j - 1]; }
            }
          }
        }
      }
      assert r.None? ==> forall i | 0 <= i < |plats| :: GrabAt(p, plats[i]).None? by {
        if r.None? {
          forall i | 0 <= i < |plats| ensures GrabAt(p, plats[i]).None? {
            if i > 0 { assert plats[i] == plats[1..][i - 1]; }
          }
        }
      }
      r
  }

  /**
   * `checkLedgeGrab`: nothing without a stage, for a grounded or already
   * hanging player, or for a body that is not falling (`vy <= 0`, y grows
   * downwards); otherwise the first grab the platform list offers.
   */
  function CheckLedgeGrab(stage: Option<Stage>, p: Player, vy: real): (g: Option<LedgeGrab>)
    ensures stage.None? || p.isOnGround || p.isLedgeHanging || vy <= 0.0 ==> g.None?
    ensures g.Some? ==> g.value.direction == 1 || g.value.direction == -1
    ensures g.Some? ==> exists i | 0 <= i < |stage.value.platforms| ::
      g == GrabAt(p, stage.value.platforms[i])
      && forall j | 0 <= j < i :: GrabAt(p, stage.value.platforms[j]).None?
    ensures stage.Some? && !p.isOnGround && !p.isLedgeHanging && vy > 0.0 && g.None? ==>
      forall i | 0 <= i < |stage.value.platforms| :: GrabAt(p, stage.value.platforms[i]).None?
  {
    if stage.None? || p.isOnGround || p.isLedgeHanging then None
    else if vy <= 0.0 then None
    else FirstGrab(p, stage.value.platforms)
  }

  /** At its anchor the player's box touches the grabbed edge without overlapping the platform. */
  lemma AnchorTouchesWithoutOverlap(p: Player, plat: Rect)
    requires GrabAt(p, plat).Some?
    ensures var g := GrabAt(p, plat).value;
      !CheckCollision(Some(Rect(g.x, g.y, p.width, p.height)), Some(plat))
  {
  }

  /**
   * The hang entry turns the player to face `-direction`, i.e. away from the
   * platform, so the climb release (direction 1, along the facing) carries
   * the player away from the platform it grabbed.
   */
  lemma ClimbMovesAwayFromPlatform(p: Player, plat: Rect)
    requires GrabAt(p, plat).Some?
    ensures var g := GrabAt(p, plat).value;
      var v := ReleaseVelocity(1, -g.direction);
      (g.direction == 1 ==> g.x + p.width == plat.x && v.vx < 0.0)
      && (g.direction == -1 ==> g.x == plat.x + plat.width && v.vx > 0.0)
  {
  }
}
