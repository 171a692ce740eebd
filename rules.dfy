/**
 * Per-entity rules shared by the three single-machine levels: the input step
 * (left beats right, jump only from the ground), Euler integration with
 * gravity, the walking animation, player-on-player stacking, and the
 * minimum-overlap resolution of a moving body against a static rectangle.
 */
module Rules {
  import opened Common
  import opened Physics

  /** A player of a single-machine level. `standingOnPlayer` is the id ridden this tick. */
  datatype Player = Player(id: int, body: Body, animFrame: int, facingRight: bool, dead: bool,
                           standingOnPlayer: Option<int>)
  {
    function Bounds(): Rect { body.Bounds() }
  }

  /** A level's movement constants. */
  datatype Tuning = Tuning(gravity: real, jumpForce: real, moveSpeed: real)

  /** The key names that steer one player. */
  datatype Controls = Controls(left: string, right: string, jump: string)

  /** The fixed bindings of the two-player levels: player 1 on a/d/w, every other player on the arrows. */
  function ControlsForId(id: int): Controls
  {
    if id == 1 then Controls("a", "d", "w") else Controls("arrowleft", "arrowright", "arrowup")
  }

  /** Horizontal speed and facing from the held keys; jump from the ground only. */
  function ApplyControls(p: Player, keys: set<string>, c: Controls, t: Tuning): (r: Player)
    ensures r.body.x == p.body.x && r.body.y == p.body.y && r.id == p.id && r.dead == p.dead
    ensures r.body.width == p.body.width && r.body.height == p.body.height
  {
    var moved :=
      if c.left in keys then p.(body := p.body.(vx := -t.moveSpeed), facingRight := false)
      else if c.right in keys then p.(body := p.body.(vx := t.moveSpeed), facingRight := true)
      else p.(body := p.body.(vx := 0.0));
    if c.jump in keys && moved.body.onGround then moved.(body := moved.body.(vy := t.jumpForce, onGround := false))
    else moved
  }

  /** One Euler step: gravity into vy, then velocity into position. */
  function Integrate(p: Player, t: Tuning): Player
  {
    var vy := p.body.vy + t.gravity;
    p.(body := p.body.(vy := vy, x := p.body.x + p.body.vx, y := p.body.y + vy))
  }

  /** Walking frames alternate 1/2 every eighth tick; standing still shows frame 0. */
  function Animate(p: Player, animTimer: int): (r: Player)
    ensures r.body == p.body && r.id == p.id && r.dead == p.dead
    ensures p.body.vx == 0.0 ==> r.animFrame == 0
    ensures p.body.vx != 0.0 && animTimer % 8 == 0 ==> r.animFrame != p.animFrame && r.animFrame in {1, 2}
    ensures p.body.vx != 0.0 && animTimer % 8 != 0 ==> r.animFrame == p.animFrame
  {
    if p.body.vx != 0.0 then
      (if animTimer % 8 == 0 then p.(animFrame := if p.animFrame == 1 then 2 else 1) else p)
    else p.(animFrame := 0)
  }

  /**
   * The start of a living player's step: input, integration, animation, and
   * the contact flags cleared for this tick's resolution.
   */
  function BeginStep(p: Player, keys: set<string>, c: Controls, t: Tuning, animTimer: int): (r: Player)
    ensures r.id == p.id && r.dead == p.dead && r.body.width == p.body.width && r.body.height == p.body.height
    ensures !r.body.onGround && r.standingOnPlayer == None
  {
    var q := Animate(Integrate(ApplyControls(p, keys, c, t), t), animTimer);
    q.(body := q.body.(onGround := false), standingOnPlayer := None)
  }

  /**
   * Left beats right, so the horizontal speed is -speed, 0 or +speed; a jump
   * happens exactly when the jump key is held on the ground, and then the new
   * vertical speed is the jump force plus one tick of gravity; otherwise gravity
   * alone is added (so an airborne player's vy strictly grows when gravity is
   * positive).
   */
  lemma BeginStepMotion(p: Player, keys: set<string>, c: Controls, t: Tuning, animTimer: int)
    ensures var r := BeginStep(p, keys, c, t, animTimer);
            && (c.left in keys ==> r.body.vx == -t.moveSpeed && !r.facingRight)
            && (c.left !in keys && c.right in keys ==> r.body.vx == t.moveSpeed && r.facingRight)
            && (c.left !in keys && c.right !in keys ==> r.body.vx == 0.0 && r.facingRight == p.facingRight)
            && (c.jump in keys && p.body.onGround ==> r.body.vy == t.jumpForce + t.gravity)
            && (!(c.jump in keys && p.body.onGround) ==> r.body.vy == p.body.vy + t.gravity)
            && r.body.x == p.body.x + r.body.vx
            && r.body.y == p.body.y + r.body.vy
            && (t.gravity > 0.0 && !p.body.onGround ==> r.body.vy > p.body.vy)
  {
  }

  // ---------------------------------------------------------------------
  // Stacking: riding on another player's head.

  /**
   * `player` rides `other`: neither dead, feet within [head-5, head+15], not
   * rising, and more than `margin` of horizontal overlap on each side.
   */
  predicate CheckPlayerStacking(player: Player, other: Player, margin: real)
  {
    !player.dead && !other.dead &&
    var feetY := player.body.y + player.body.height;
    var headY := other.body.y;
    feetY >= headY - 5.0 && feetY <= headY + 15.0 && player.body.vy >= 0.0 &&
    player.body.x + player.body.width > other.body.x + margin &&
    player.body.x < other.body.x + other.body.width - margin
  }

  /**
   * Stand on `other`: feet on its head, vy zero, grounded, riding its id, and
   * carried by 0.8 of its speed when it moves and the rider does not.
   */
  function StackOn(p: Player, other: Player): (r: Player)
    ensures r.id == p.id && r.dead == p.dead && r.body.width == p.body.width && r.body.height == p.body.height
    ensures r.body.vx == p.body.vx
  {
    var landed := p.(body := LandOn(p.body, other.body.y), standingOnPlayer := Some(other.id));
    if other.body.vx != 0.0 && p.body.vx == 0.0 then landed.(body := landed.body.(x := landed.body.x + other.body.vx * 0.8))
    else landed
  }

  /**
   * A stacking test that holds puts the rider's feet within 15 of the other's
   * head, with positive overlap; standing on it then leaves the rider flush on
   * top (touching, so not colliding), at rest and riding that player, and a
   * still partner carries nobody sideways.
   */
  lemma StackingMeaning(p: Player, other: Player, margin: real)
    requires margin >= 0.0 && CheckPlayerStacking(p, other, margin)
    ensures !p.dead && !other.dead && p.body.vy >= 0.0
    ensures other.body.y - 5.0 <= p.body.Feet() <= other.body.y + 15.0
    ensures p.body.x + p.body.width > other.body.x + margin && p.body.x < other.body.x + other.body.width - margin
    ensures p.body.x + p.body.width > other.body.x && p.body.x < other.body.x + other.body.width
    ensures var r := StackOn(p, other);
            && r.body.Feet() == other.body.y && r.body.vy == 0.0 && r.body.onGround
            && r.standingOnPlayer == Some(other.id)
            && !CheckCollision(r.Bounds(), other.Bounds())
            && (other.body.vx == 0.0 ==> r.body.x == p.body.x)
  {
  }

  /** Neither a dead rider nor a dead partner ever stacks. */
  lemma DeadNeverStacks(p: Player, other: Player, margin: real)
    requires p.dead || other.dead
    ensures !CheckPlayerStacking(p, other, margin)
  {
  }

  /**
   * The stacking pass of player `i` over the others (index `j` onwards): every
   * living other player it rides snaps it on top.
   */
  function StackPass(p: Player, ps: seq<Player>, i: int, margin: real, j: nat): (r: Player)
    decreases |ps| - j
  {
    if j >= |ps| then p
    else
      var next := if j != i && !ps[j].dead && CheckPlayerStacking(p, ps[j], margin) then StackOn(p, ps[j]) else p;
      StackPass(next, ps, i, margin, j + 1)
  }

  /** The stacking pass keeps the player's identity and size, and never changes its horizontal speed. */
  lemma {:induction false} StackPassKeeps(p: Player, ps: seq<Player>, i: int, margin: real, j: nat)
    ensures var r := StackPass(p, ps, i, margin, j);
            r.id == p.id && r.dead == p.dead && r.body.width == p.body.width && r.body.height == p.body.height
            && r.body.vx == p.body.vx
    decreases |ps| - j
  {
    if j < |ps| {
      var next := if j != i && !ps[j].dead && CheckPlayerStacking(p, ps[j], margin) then StackOn(p, ps[j]) else p;
      StackPassKeeps(next, ps, i, margin, j + 1);
    }
  }

  /** Either of the two stands on the other this tick. */
  predicate Stacked(p: Player, o: Player)
  {
    p.standingOnPlayer == Some(o.id) || o.standingOnPlayer == Some(p.id)
  }

  /** Colliding, and shallower horizontally than vertically. */
  predicate SideContact(p: Player, o: Player)
  {
    CheckCollision(p.Bounds(), o.Bounds()) &&
    Overlaps(p.Bounds(), o.Bounds()).MinX() < Overlaps(p.Bounds(), o.Bounds()).MinY()
  }

  // ---------------------------------------------------------------------
  // Resolution against a static rectangle.

  /** The four penetration depths of `a` into `b`. */
  datatype Overlap = Overlap(left: real, right: real, top: real, bottom: real)
  {
    function MinX(): real { Min(left, right) }
    function MinY(): real { Min(top, bottom) }
  }

  function Overlaps(a: Rect, b: Rect): Overlap
  {
    Overlap(a.x + a.width - b.x, b.x + b.width - a.x, a.y + a.height - b.y, b.y + b.height - a.y)
  }

  /** The landing case: colliding, shallower vertically, top overlap smaller, falling. */
  predicate LandsOn(b: Body, platform: Rect)
  {
    CheckCollision(b.Bounds(), platform) &&
    var o := Overlaps(b.Bounds(), platform);
    o.MinY() < o.MinX() && o.top < o.bottom && b.vy > 0.0
  }

  /** The head-bump case: colliding, shallower vertically, bottom overlap smaller, rising. */
  predicate BumpsUnder(b: Body, platform: Rect)
  {
    CheckCollision(b.Bounds(), platform) &&
    var o := Overlaps(b.Bounds(), platform);
    o.MinY() < o.MinX() && o.bottom < o.top && b.vy < 0.0
  }

  /** The side case: colliding and at least as deep vertically as horizontally. */
  predicate HitsSide(b: Body, platform: Rect)
  {
    CheckCollision(b.Bounds(), platform) &&
    var o := Overlaps(b.Bounds(), platform);
    !(o.MinY() < o.MinX())
  }

  /** Minimum-overlap resolution of a body against a platform. */
  function ResolvePlatform(b: Body, platform: Rect): (r: Body)
    ensures r.width == b.width && r.height == b.height
  {
    if !CheckCollision(b.Bounds(), platform) then b
    else
      var o := Overlaps(b.Bounds(), platform);
      if o.MinY() < o.MinX() then
        if o.top < o.bottom && b.vy > 0.0 then LandOn(b, platform.y)
        else if o.bottom < o.top && b.vy < 0.0 then b.(y := platform.y + platform.height, vy := 0.0)
        else b
      else
        b.(x := if o.left < o.right then platform.x - b.width else platform.x + platform.width, vx := 0.0)
  }

  /**
   * What resolution does: a landing puts the feet on the platform top with vy
   * zero and grounded; a head bump puts the head on its underside with vy zero;
   * a side hit leaves the body flush with the nearer side and vx zero. In these
   * three cases the body no longer collides with the platform; otherwise
   * (no collision, or a shallow vertical overlap while moving away) it is
   * unchanged.
   */
  lemma ResolvePlatformMeaning(b: Body, platform: Rect)
    ensures var r := ResolvePlatform(b, platform);
            && (LandsOn(b, platform) ==> r.Feet() == platform.y && r.vy == 0.0 && r.onGround && r.x == b.x && r.vx == b.vx)
            && (BumpsUnder(b, platform) ==> r.y == platform.y + platform.height && r.vy == 0.0 && r.x == b.x && r.onGround == b.onGround)
            && (HitsSide(b, platform) ==>
                  r.vx == 0.0 && r.y == b.y && r.vy == b.vy &&
                  (if Overlaps(b.Bounds(), platform).left < Overlaps(b.Bounds(), platform).right
                   then r.x + r.width == platform.x else r.x == platform.x + platform.width))
            && (LandsOn(b, platform) || BumpsUnder(b, platform) || HitsSide(b, platform) ==> !CheckCollision(r.Bounds(), platform))
            && (!(LandsOn(b, platform) || BumpsUnder(b, platform) || HitsSide(b, platform)) ==> r == b)
  {
  }

  /** Resolution against every platform in order (all of them, no early exit). */
  function ResolvePlatforms(b: Body, platforms: seq<Rect>, k: nat): (r: Body)
    ensures r.width == b.width && r.height == b.height
    decreases |platforms| - k
  {
    if k >= |platforms| then b else ResolvePlatforms(ResolvePlatform(b, platforms[k]), platforms, k + 1)
  }

  /**
   * After the pass, the body ends flush on the last platform it landed on, or
   * a later one changed it; in particular a body landing on the last platform
   * in the list ends with its feet on that platform's top.
   */
  lemma {:induction false} LastLandingWins(b: Body, platforms: seq<Rect>)
    requires |platforms| > 0
    requires LandsOn(ResolvePlatforms(b, platforms[..|platforms| - 1], 0), platforms[|platforms| - 1])
    ensures var r := ResolvePlatforms(b, platforms, 0);
            r.Feet() == platforms[|platforms| - 1].y && r.vy == 0.0 && r.onGround
  {
    ResolvePlatformsSnoc(b, platforms[..|platforms| - 1], platforms[|platforms| - 1], 0);
    assert platforms[..|platforms| - 1] + [platforms[|platforms| - 1]] == platforms;
  }

  lemma {:induction false} ResolvePlatformsSnoc(b: Body, platforms: seq<Rect>, last: Rect, k: nat)
    requires k <= |platforms|
    ensures ResolvePlatforms(b, platforms + [last], k) == ResolvePlatform(ResolvePlatforms(b, platforms, k), last)
    decreases |platforms| - k
  {
    if k < |platforms| {
      assert (platforms + [last])[k] == platforms[k];
      ResolvePlatformsSnoc(ResolvePlatform(b, platforms[k]), platforms, last, k + 1);
    } else {
      assert (platforms + [last])[k] == last;
    }
  }

  /** The final clamp of a step: nobody ends a step left of x = 0. */
  function ClampLeft(p: Player): (r: Player)
    ensures r.body.x >= 0.0 && r.body.y == p.body.y
    ensures p.body.x >= 0.0 ==> r == p
    ensures p.body.x < 0.0 ==> r.body.x == 0.0
    ensures r.(body := p.body) == p && r.body.(x := p.body.x) == p.body
  {
    if p.body.x < 0.0 then p.(body := p.body.(x := 0.0)) else p
  }
}
