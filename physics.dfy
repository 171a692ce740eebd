/**
 * The shared geometry and physics primitives of the game: the axis-aligned
 * rectangle overlap test, the "standing on a platform" test, the landing snap,
 * spawn positions, clamp, linear interpolation and the point-in-rectangle test.
 * Coordinates are exact reals (screen space, y grows downwards).
 */
module Physics {
  import opened Common

  // The shared tuning table (used by the networked level).
  const GRAVITY: real := 0.6
  const JUMP_FORCE: real := -10.0
  const MOVE_SPEED: real := 4.0

  // The shared player dimensions.
  const PLAYER_WIDTH: real := 45.0
  const PLAYER_HEIGHT: real := 55.0

  // Timing: the networked level sends its own state every third tick.
  const SERVER_UPDATE_RATE: nat := 3
  const MAX_PLAYERS: nat := 4

  /** An axis-aligned rectangle: top-left corner and size. */
  datatype Rect = Rect(x: real, y: real, width: real, height: real)

  datatype Point = Point(x: real, y: real)

  /**
   * A moving rectangle: a player's or a box's position, velocity, size and
   * whether it rested on something at the end of its last resolution.
   */
  datatype Body = Body(x: real, y: real, vx: real, vy: real, width: real, height: real, onGround: bool)
  {
    function Bounds(): Rect { Rect(x, y, width, height) }
    /** The y of the body's bottom edge. */
    function Feet(): real { y + height }
  }

  /** AABB overlap; all four comparisons are strict, so touching edges do not collide. */
  predicate CheckCollision(a: Rect, b: Rect)
  {
    a.x < b.x + b.width &&
    a.x + a.width > b.x &&
    a.y < b.y + b.height &&
    a.y + a.height > b.y
  }

  lemma CheckCollisionSymmetric(a: Rect, b: Rect)
    ensures CheckCollision(a, b) <==> CheckCollision(b, a)
  {
  }

  /** Two rectangles that share a vertical or horizontal edge do not collide. */
  lemma SharedEdgeDoesNotCollide(a: Rect, b: Rect)
    requires a.x + a.width == b.x || b.x + b.width == a.x || a.y + a.height == b.y || b.y + b.height == a.y
    ensures !CheckCollision(a, b)
  {
  }

  /** The point test includes the rectangle's edges. */
  predicate PointInRect(p: Point, r: Rect)
  {
    p.x >= r.x && p.x <= r.x + r.width && p.y >= r.y && p.y <= r.y + r.height
  }

  /**
   * A point is inside iff it lies within the closed intervals of both axes,
   * so both corners of a rectangle of non-negative size are inside it.
   */
  lemma CornersAreInside(r: Rect, q: Point)
    requires r.width >= 0.0 && r.height >= 0.0
    ensures PointInRect(q, r) <==> r.x <= q.x <= r.x + r.width && r.y <= q.y <= r.y + r.height
    ensures PointInRect(Point(r.x, r.y), r)
    ensures PointInRect(Point(r.x + r.width, r.y + r.height), r)
  {
  }

  /** Standing on a platform: falling or at rest, feet in [top-5, top+10], strict horizontal overlap. */
  predicate IsOnPlatform(b: Body, platform: Rect)
  {
    b.vy >= 0.0 &&
    b.y + b.height <= platform.y + 10.0 &&
    b.y + b.height >= platform.y - 5.0 &&
    b.x + b.width > platform.x &&
    b.x < platform.x + platform.width
  }

  /** The landing snap as a value: bottom edge on `top`, vertical speed zero, grounded. */
  function LandOn(b: Body, top: real): (r: Body)
    ensures r.Feet() == top && r.vy == 0.0 && r.onGround
    ensures r.x == b.x && r.vx == b.vx && r.width == b.width && r.height == b.height
  {
    b.(y := top - b.height, vy := 0.0, onGround := true)
  }

  /**
   * A body that lands on a platform it overlaps horizontally is "on" that
   * platform afterwards, and no longer collides with it.
   */
  lemma LandingIsOnPlatform(b: Body, platform: Rect)
    requires b.x + b.width > platform.x && b.x < platform.x + platform.width
    ensures IsOnPlatform(LandOn(b, platform.y), platform)
    ensures !CheckCollision(LandOn(b, platform.y).Bounds(), platform)
  {
  }

  /** Being on a platform says the feet are within 15 of the top and the body is not rising. */
  lemma OnPlatformBand(b: Body, platform: Rect)
    requires IsOnPlatform(b, platform)
    ensures b.vy >= 0.0
    ensures platform.y - 5.0 <= b.Feet() <= platform.y + 10.0
    ensures b.x + b.width > platform.x && b.x < platform.x + platform.width
  {
  }

  /** A mutable record with the fields the in-place landing snap touches. */
  class BodyRecord {
    var x: real
    var y: real
    var height: real
    var vy: real
    var onGround: bool

    constructor (x: real, y: real, height: real, vy: real, onGround: bool)
      ensures this.x == x && this.y == y && this.height == height && this.vy == vy && this.onGround == onGround
    {
      this.x, this.y, this.height, this.vy, this.onGround := x, y, height, vy, onGround;
    }
  }

  /** Snaps the record onto a platform top, in place. */
  method ApplyPlatformCollision(player: BodyRecord, platformY: real)
    modifies player
    ensures player.y + player.height == platformY
    ensures player.vy == 0.0 && player.onGround
    ensures player.x == old(player.x) && player.height == old(player.height)
  {
    player.y := platformY - player.height;
    player.vy := 0.0;
    player.onGround := true;
  }

  /** `buttons.some(button => checkCollision(player, button))`. */
  function CheckDangerButtonCollision(player: Rect, buttons: seq<Rect>): bool
  {
    if |buttons| == 0 then false
    else CheckCollision(player, buttons[0]) || CheckDangerButtonCollision(player, buttons[1..])
  }

  /** A danger hit is reported exactly when some button overlaps the player. */
  lemma {:induction false} DangerIffSomeButton(player: Rect, buttons: seq<Rect>)
    ensures CheckDangerButtonCollision(player, buttons) <==>
            exists i :: 0 <= i < |buttons| && CheckCollision(player, buttons[i])
  {
    if |buttons| > 0 {
      DangerIffSomeButton(player, buttons[1..]);
      if CheckDangerButtonCollision(player, buttons[1..]) {
        var i :| 0 <= i < |buttons[1..]| && CheckCollision(player, buttons[1..][i]);
        assert CheckCollision(player, buttons[i + 1]);
      }
      if exists i :: 0 <= i < |buttons| && CheckCollision(player, buttons[i]) {
        var i :| 0 <= i < |buttons| && CheckCollision(player, buttons[i]);
        if i > 0 {
          assert buttons[1..][i - 1] == buttons[i];
        }
      }
    }
  }

  /** Spawn slot of a player: 80 apart by id, standing on the ground line. */
  function GetSpawnPosition(playerId: int, groundY: real): (r: Point)
    ensures r.x == 50.0 + playerId as real * 80.0
    ensures r.y + PLAYER_HEIGHT == groundY
  {
    Point(50.0 + playerId as real * 80.0, groundY - PLAYER_HEIGHT)
  }

  /** Distinct player ids spawn at distinct x, 80 per id apart. */
  lemma SpawnPositionsDistinct(id1: int, id2: int, groundY: real)
    ensures GetSpawnPosition(id2, groundY).x - GetSpawnPosition(id1, groundY).x == 80.0 * (id2 - id1) as real
    ensures id1 != id2 ==> GetSpawnPosition(id1, groundY).x != GetSpawnPosition(id2, groundY).x
  {
  }

  /** `Math.max(min, Math.min(max, value))`. */
  function Clamp(value: real, min: real, max: real): (r: real)
    ensures min <= max ==> min <= r <= max
    ensures min <= value <= max ==> r == value
    ensures min > max ==> r == min
  {
    Max(min, Min(max, value))
  }

  function Lerp(start: real, end: real, amount: real): real
  {
    start + (end - start) * amount
  }

  /** Interpolation hits both endpoints and stays between them for amounts in [0, 1]. */
  lemma LerpEndpoints(start: real, end: real, amount: real)
    ensures Lerp(start, end, 0.0) == start && Lerp(start, end, 1.0) == end
    ensures 0.0 <= amount <= 1.0 && start <= end ==> start <= Lerp(start, end, amount) <= end
  {
    if 0.0 <= amount <= 1.0 && start <= end {
      assert 0.0 <= (end - start) * amount <= end - start by {
        MulBetween(end - start, amount);
      }
    }
  }

  lemma MulBetween(d: real, t: real)
    requires d >= 0.0 && 0.0 <= t <= 1.0
    ensures 0.0 <= d * t <= d
  {
    assert d * t <= d * 1.0;
  }
}
