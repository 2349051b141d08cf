/** Player kinematics: walking inside the world, landing on platforms, and the following camera. */
module Motion {
  import opened Entities

  const PlayerWidth: real := 70.0
  const PlayerHeight: real := 70.0
  const PlayerSpeed: real := 5.0
  const JumpForce: real := 15.0
  /** The camera aims to keep the player this far from the left edge of the view. */
  const CameraLead: real := 400.0
  const CameraSpeed: real := 0.1

  /** Horizontal position and facing after one frame of arrow keys. */
  datatype Stride = Stride(x: real, facingRight: bool)

  /**
   * Right is applied first, then left; each moves by the speed or, when that would cross the
   * world boundary, stops exactly at it. Facing follows the last key applied.
   */
  function Walk(x: real, facingRight: bool, keys: Keys, left: real, right: real): (r: Stride)
    ensures left <= x <= right - PlayerWidth ==> left <= r.x <= right - PlayerWidth
    ensures left <= x <= right - PlayerWidth ==> x - PlayerSpeed <= r.x <= x + PlayerSpeed
    ensures keys.right && !keys.left && left <= x <= right - PlayerWidth ==> r.x >= x
    ensures keys.left && !keys.right && left <= x <= right - PlayerWidth ==> r.x <= x
    ensures !keys.left && !keys.right ==> r == Stride(x, facingRight)
    ensures r.facingRight == if keys.left then false else if keys.right then true else facingRight
  {
    var afterRight :=
      if !keys.right then x
      else if x + PlayerWidth + PlayerSpeed <= right then x + PlayerSpeed
      else right - PlayerWidth;
    var afterLeft :=
      if !keys.left then afterRight
      else if afterRight - PlayerSpeed >= left then afterRight - PlayerSpeed
      else left;
    Stride(afterLeft, if keys.left then false else if keys.right then true else facingRight)
  }

  /**
   * The landing test for one platform: the player's bottom edge was at or above the platform's top
   * before this frame's fall, is now between the top and half the platform's thickness below it,
   * and the player overlaps the platform horizontally.
   */
  predicate LandsOn(pl: Platform, x: real, y: real, velocityY: real) {
    var bottom := y + PlayerHeight;
    bottom - velocityY <= pl.y &&
    bottom >= pl.y &&
    bottom <= pl.y + pl.height / 2.0 &&
    x + PlayerWidth > pl.x &&
    x < pl.x + pl.width
  }

  /** The first platform in list order that the player lands on, if any. */
  function FirstLanding(ps: seq<Platform>, x: real, y: real, velocityY: real): (r: Option<nat>)
    ensures r.Some? ==> r.value < |ps| && LandsOn(ps[r.value], x, y, velocityY)
    ensures r.Some? ==> forall k :: 0 <= k < r.value ==> !LandsOn(ps[k], x, y, velocityY)
    ensures r.None? <==> forall k :: 0 <= k < |ps| ==> !LandsOn(ps[k], x, y, velocityY)
  {
    if ps == [] then None
    else if LandsOn(ps[0], x, y, velocityY) then Some(0)
    else match FirstLanding(ps[1..], x, y, velocityY)
      case None => None
      case Some(k) => Some(k + 1)
  }

  /**
   * Landing is stable: a player standing still on a platform top, after one frame of gravity, is
   * caught by that platform again unless an earlier platform in the list catches it first.
   */
  lemma StandingIsStable(ps: seq<Platform>, k: nat, x: real)
    requires k < |ps| && ps[k].height >= 2.0 * Gravity
    requires x + PlayerWidth > ps[k].x && x < ps[k].x + ps[k].width
    ensures var y := ps[k].y - PlayerHeight;
      FirstLanding(ps, x, y + Gravity, Gravity).Some? &&
      FirstLanding(ps, x, y + Gravity, Gravity).value <= k &&
      (FirstLanding(ps, x, y + Gravity, Gravity).value == k <==>
        forall j :: 0 <= j < k ==> !LandsOn(ps[j], x, y + Gravity, Gravity))
  {
    var y := ps[k].y - PlayerHeight;
    assert LandsOn(ps[k], x, y + Gravity, Gravity);
  }

  /** The player's vertical state: height, vertical speed, and whether a jump is under way. */
  datatype Rise = Rise(y: real, velocityY: real, isJumping: bool)

  /** The up key starts a jump, at the jump force upwards, only when no jump is under way. */
  function Jumped(b: Rise, up: bool): (r: Rise)
    ensures r.isJumping <==> b.isJumping || up
    // a jump under way is never restarted in mid-air
    ensures b.isJumping || !up ==> r == b
    ensures !b.isJumping && up ==> r == Rise(b.y, -JumpForce, true)
  {
    if up && !b.isJumping then b.(velocityY := -JumpForce, isJumping := true) else b
  }

  /**
   * One frame of gravity, then the platform test (only while not rising) and the ground: the player
   * either comes to rest on a platform top or the ground, or flies on with the new speed.
   */
  function Fallen(ps: seq<Platform>, x: real, y: real, velocityY: real, isJumping: bool): (r: Rise)
    // the ground stops every fall
    ensures r.y + PlayerHeight <= GroundY
    ensures var v := velocityY + Gravity;
      var landing := if v >= 0.0 then FirstLanding(ps, x, y + v, v) else None;
      // landing on a platform: at rest on its top, or on the ground when the top is below it
      (landing.Some? ==>
         r.velocityY == 0.0 && !r.isJumping &&
         r.y == (if ps[landing.value].y <= GroundY then ps[landing.value].y else GroundY) - PlayerHeight) &&
      // no platform: at rest on the ground when the fall reaches it, otherwise in free flight
      (landing.None? && y + v + PlayerHeight > GroundY ==> r == Rise(GroundY - PlayerHeight, 0.0, false)) &&
      (landing.None? && y + v + PlayerHeight <= GroundY ==> r == Rise(y + v, v, isJumping))
  {
    var v := velocityY + Gravity;
    var landing := if v >= 0.0 then FirstLanding(ps, x, y + v, v) else None;
    var a := if landing.Some? then Rise(ps[landing.value].y - PlayerHeight, 0.0, false) else Rise(y + v, v, isJumping);
    if a.y + PlayerHeight > GroundY then Rise(GroundY - PlayerHeight, 0.0, false) else a
  }

  /** A player resting on the ground stays there, whatever the platforms. */
  lemma RestsOnGround(ps: seq<Platform>, x: real)
    ensures Fallen(ps, x, GroundY - PlayerHeight, 0.0, false) == Rise(GroundY - PlayerHeight, 0.0, false)
  {
  }

  /** A jump from the ground takes off: the player rises by the jump force less one frame of gravity and is in the air. */
  lemma TakesOff(ps: seq<Platform>, x: real)
    ensures var j := Jumped(Rise(GroundY - PlayerHeight, 0.0, false), true);
      Fallen(ps, x, j.y, j.velocityY, j.isJumping) == Rise(GroundY - PlayerHeight - JumpForce + Gravity, Gravity - JumpForce, true)
  {
  }

  /** The camera's position one frame later: a tenth of the way to its target, then clamped to the world. */
  function Follow(cameraX: real, playerX: real, left: real, right: real): (c: real)
    ensures left <= right - CanvasWidth ==> left <= c <= right - CanvasWidth
    ensures left <= cameraX <= right - CanvasWidth && left <= playerX - CameraLead <= right - CanvasWidth ==>
      playerX - CameraLead - c == (1.0 - CameraSpeed) * (playerX - CameraLead - cameraX)
  {
    var target := playerX - CameraLead;
    var lerped := cameraX + (target - cameraX) * CameraSpeed;
    if lerped < left then left
    else if lerped > right - CanvasWidth then right - CanvasWidth
    else lerped
  }

  /** A distance `d` after `n` frames of shrinking by the factor `1 - CameraSpeed`. */
  function Shrunk(d: real, n: nat): real {
    if n == 0 then d else (1.0 - CameraSpeed) * Shrunk(d, n - 1)
  }

  /** The camera after `n` frames with the player standing at `playerX`. */
  function FollowN(cameraX: real, playerX: real, left: real, right: real, n: nat): real {
    if n == 0 then cameraX else Follow(FollowN(cameraX, playerX, left, right, n - 1), playerX, left, right)
  }

  /**
   * With a target inside the camera's range, the distance to it shrinks geometrically, by 0.9 per
   * frame, and the clamp never interferes.
   */
  lemma {:induction false} FollowConverges(cameraX: real, playerX: real, left: real, right: real, n: nat)
    requires left <= cameraX <= right - CanvasWidth
    requires left <= playerX - CameraLead <= right - CanvasWidth
    ensures left <= FollowN(cameraX, playerX, left, right, n) <= right - CanvasWidth
    ensures playerX - CameraLead - FollowN(cameraX, playerX, left, right, n) ==
      Shrunk(playerX - CameraLead - cameraX, n)
    decreases n
  {
    if n > 0 {
      FollowConverges(cameraX, playerX, left, right, n - 1);
    }
  }

  /** The shrinking distance keeps its sign and never grows: the camera never overshoots its target. */
  lemma {:induction false} ShrunkNeverGrows(d: real, n: nat)
    ensures d >= 0.0 ==> 0.0 <= Shrunk(d, n + 1) <= Shrunk(d, n) <= d
    ensures d <= 0.0 ==> d <= Shrunk(d, n) <= Shrunk(d, n + 1) <= 0.0
    decreases n
  {
    if n > 0 {
      ShrunkNeverGrows(d, n - 1);
    }
  }
}
