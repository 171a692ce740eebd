/**
 * The two-player levels as the loop runs them: players, moving platforms and
 * falling platforms are arrays updated in place, one phase at a time; key,
 * door set, state, camera and the pending reset are fields. Every method is
 * proved to do exactly what the value-level definitions in ClassicSpec say.
 */
module ClassicEngine {
  import opened Common
  import opened Physics
  import opened Camera
  import opened Rules
  import opened Session
  import opened ClassicSpec

  class World {
    const cfg: Config
    const players: array<Player>
    const moving: array<MovingPlatform>
    const falling: array<FallingPlatform>
    var keyCollected: bool
    var atDoor: set<int>
    var state: GameState
    var camera: Cam
    var animTimer: int
    var deathTimer: Option<nat>
    var nextTimerId: nat

    /** The status fields as a value. */
    ghost function StatusNow(): Status
      reads this
    {
      Status(keyCollected, atDoor, state, camera, animTimer, deathTimer, nextTimerId)
    }

    /** The level as a value. */
    ghost function Snapshot(): Level
      reads this, players, moving, falling
    {
      Level(players[..], moving[..], falling[..], StatusNow())
    }

    /** The level as first mounted: both players at y = 400, nothing collected, playing. */
    constructor (cfg: Config, moving0: seq<MovingPlatform>, falling0: seq<FallingPlatform>)
      ensures this.cfg == cfg && players.Length == PLAYER_COUNT
      ensures fresh(players) && fresh(moving) && fresh(falling)
      ensures Snapshot() == Level([NewPlayer(1, 50.0, 400.0), NewPlayer(2, 100.0, 400.0)], moving0, falling0,
                                  Status(false, {}, Playing, Cam(0.0, 0.0), 0, None, 0))
    {
      this.cfg := cfg;
      players := new Player[PLAYER_COUNT][NewPlayer(1, 50.0, 400.0), NewPlayer(2, 100.0, 400.0)];
      moving := new MovingPlatform[|moving0|](k requires 0 <= k < |moving0| => moving0[k]);
      falling := new FallingPlatform[|falling0|](k requires 0 <= k < |falling0| => falling0[k]);
      keyCollected, atDoor, state, camera := false, {}, Playing, Cam(0.0, 0.0);
      animTimer, deathTimer, nextTimerId := 0, None, 0;
    }

    /** `handleDeath`, with the state the tick started from. */
    method HandleDeath(seen: GameState)
      modifies this
      ensures StatusNow() == Session.HandleDeath(old(StatusNow()), seen)
    {
      if seen == Dead {
        return;
      }
      state := Dead;
      deathTimer := Some(nextTimerId);
      nextTimerId := nextTimerId + 1;
    }

    /** `resetGame`. */
    method ResetGame()
      requires players.Length == PLAYER_COUNT
      modifies this, players, falling
      ensures Snapshot() == ClassicSpec.ResetGame(cfg, old(Snapshot()))
    {
      players[0] := NewPlayer(1, 50.0, cfg.groundY - 100.0);
      players[1] := NewPlayer(2, 100.0, cfg.groundY - 100.0);
      keyCollected := false;
      assert players[..] == [NewPlayer(1, 50.0, cfg.groundY - 100.0), NewPlayer(2, 100.0, cfg.groundY - 100.0)];
      var k := 0;
      while k < falling.Length
        invariant 0 <= k <= falling.Length
        invariant forall m :: 0 <= m < k ==> falling[m] == old(falling[m]).(falling := false, fallTimer := 0, y := old(falling[m]).originalY)
        invariant forall m :: k <= m < falling.Length ==> falling[m] == old(falling[m])
        modifies falling
      {
        falling[k] := falling[k].(falling := false, fallTimer := 0, y := falling[k].originalY);
        k := k + 1;
      }
      camera := Cam(0.0, 0.0);
      atDoor := {};
      state := Playing;
      assert falling[..] == RestoreFalling(old(falling[..]));
    }

    /** The reset timeout `id` fires. */
    method TimerFires(id: nat)
      requires players.Length == PLAYER_COUNT
      modifies this, players, falling
      ensures Snapshot() == ClassicSpec.TimerFires(cfg, old(Snapshot()), id)
    {
      if deathTimer == Some(id) {
        ResetGame();
        deathTimer := None;
      }
    }

    /** Moving platforms advance and turn; falling platforms count down and drop. */
    method StepPlatforms()
      modifies moving, falling
      ensures moving[..] == StepMovingAll(old(moving[..]))
      ensures falling[..] == StepFallingAll(old(falling[..]))
    {
      var k := 0;
      while k < moving.Length
        invariant 0 <= k <= moving.Length
        invariant forall m :: 0 <= m < k ==> moving[m] == StepMoving(old(moving[m]))
        invariant forall m :: k <= m < moving.Length ==> moving[m] == old(moving[m])
        invariant falling[..] == old(falling[..])
      {
        var mp := moving[k];
        var x := mp.x + mp.speed * mp.direction;
        var direction := mp.direction;
        if x <= mp.startX || x + mp.width >= mp.endX + mp.width {
          direction := -direction;
        }
        moving[k] := mp.(x := x, direction := direction);
        k := k + 1;
      }
      k := 0;
      while k < falling.Length
        invariant 0 <= k <= falling.Length
        invariant forall m :: 0 <= m < k ==> falling[m] == StepFalling(old(falling[m]))
        invariant forall m :: k <= m < falling.Length ==> falling[m] == old(falling[m])
        invariant moving[..] == StepMovingAll(old(moving[..]))
      {
        var fp := falling[k];
        if fp.falling {
          fp := fp.(fallTimer := fp.fallTimer + 1);
          if fp.fallTimer > FALL_DELAY {
            fp := fp.(y := fp.y + FALL_STEP);
          }
        }
        falling[k] := fp;
        k := k + 1;
      }
    }

    /** Player `i`, as `p`, rides every living other player its feet rest on. */
    method StackPlayer(i: nat, p: Player) returns (r: Player)
      ensures r == StackPass(p, players[..], i, STACK_MARGIN, 0)
    {
      r := p;
      var j := 0;
      while j < players.Length
        invariant 0 <= j <= players.Length
        invariant StackPass(r, players[..], i, STACK_MARGIN, j) == StackPass(p, players[..], i, STACK_MARGIN, 0)
      {
        var other := players[j];
        if j != i && !other.dead {
          if CheckPlayerStacking(r, other, STACK_MARGIN) {
            r := StackOn(r, other);
          }
        }
        j := j + 1;
      }
    }

    /** Player `i`, as `p`, pushes every living other player it touches from the side. */
    method PushPlayers(i: nat, p: Player) returns (r: Player)
      modifies players
      ensures (r, players[..]) == PushPass(p, old(players[..]), i, 0)
    {
      r := p;
      var j := 0;
      while j < players.Length
        invariant 0 <= j <= players.Length
        invariant PushPass(r, players[..], i, j) == PushPass(p, old(players[..]), i, 0)
      {
        var other := players[j];
        ghost var r0, ps0 := r, players[..];
        if j != i && !other.dead && !Stacked(r, other) {
          if CheckCollision(r.Bounds(), other.Bounds()) {
            var ov := Overlaps(r.Bounds(), other.Bounds());
            if ov.MinX() < ov.MinY() {
              var separation := ov.MinX() / 2.0 + 0.5;
              if ov.left < ov.right {
                var vx := if r.body.vx > 0.0 then Min(other.body.vx + PUSH_FORCE, ClassicSpec.MOVE_SPEED) else other.body.vx;
                r := r.(body := r.body.(x := r.body.x - separation));
                players[j] := other.(body := other.body.(x := other.body.x + separation, vx := vx));
              } else {
                var vx := if r.body.vx < 0.0 then Max(other.body.vx - PUSH_FORCE, -ClassicSpec.MOVE_SPEED) else other.body.vx;
                r := r.(body := r.body.(x := r.body.x + separation));
                players[j] := other.(body := other.body.(x := other.body.x - separation, vx := vx));
              }
            }
          }
          assert r == PushPair(r0, other).0 && players[..] == ps0[j := PushPair(r0, other).1];
        } else {
          assert r == r0 && players[..] == ps0;
        }
        j := j + 1;
      }
    }

    /** Resolves `b` against every solid; landing on a falling platform starts its fall. */
    method CollidePlatforms(b: Body, solids: seq<Solid>) returns (r: Body)
      modifies falling
      ensures (r, falling[..]) == PlatformPass(b, solids, old(falling[..]), 0)
    {
      r := b;
      var k := 0;
      while k < |solids|
        invariant 0 <= k <= |solids|
        invariant PlatformPass(r, solids, falling[..], k) == PlatformPass(b, solids, old(falling[..]), 0)
      {
        var s := solids[k];
        if LandsOn(r, s.rect) && s.originalY.Some? {
          var found := FindFalling(falling[..], s.rect.x, s.originalY.value, 0);
          if found.Some? && !falling[found.value].falling {
            falling[found.value] := falling[found.value].(falling := true);
          }
        }
        r := ResolvePlatform(r, s.rect);
        k := k + 1;
      }
    }

    /** Every danger button that overlaps `p` calls `handleDeath`. */
    method CheckHazards(p: Player, seen: GameState)
      modifies this
      ensures StatusNow() == HazardPass(old(StatusNow()), p.Bounds(), cfg.dangerButtons, seen, 0)
    {
      var k := 0;
      while k < |cfg.dangerButtons|
        invariant 0 <= k <= |cfg.dangerButtons|
        invariant HazardPass(StatusNow(), p.Bounds(), cfg.dangerButtons, seen, k) == HazardPass(old(StatusNow()), p.Bounds(), cfg.dangerButtons, seen, 0)
      {
        if CheckCollision(p.Bounds(), cfg.dangerButtons[k]) {
          HandleDeath(seen);
        }
        k := k + 1;
      }
    }

    /** One player's step. */
    method StepPlayer(i: nat, keys: set<string>, seen: GameState)
      requires i < players.Length
      modifies this, players, falling
      ensures Snapshot() == PlayerStep(cfg, old(Snapshot()), i, keys, seen)
    {
      var p := players[i];
      if p.dead {
        return;
      }
      p := BeginStep(p, keys, ControlsForId(p.id), TUNING, animTimer);
      p := StackPlayer(i, p);
      p := PushPlayers(i, p);
      var solids := AllPlatforms(cfg, moving[..], falling[..]);
      var b := CollidePlatforms(p.body, solids);
      p := p.(body := b);
      Touch(p, seen);
      if p.body.x < 0.0 {
        p := p.(body := p.body.(x := 0.0));
      }
      players[i] := p;
    }

    /** The danger-button, key, door and fall checks for the stepped player `p`. */
    method Touch(p: Player, seen: GameState)
      modifies this
      ensures StatusNow() == Contacts(cfg, old(StatusNow()), p, seen)
    {
      CheckHazards(p, seen);
      if !keyCollected && CheckCollision(p.Bounds(), cfg.key) {
        keyCollected := true;
      }
      if keyCollected && CheckCollision(p.Bounds(), cfg.door) {
        atDoor := atDoor + {p.id};
      }
      if p.body.y > cfg.canvasHeight + FALL_MARGIN {
        HandleDeath(seen);
      }
    }

    /** One tick of `gameLoop`'s simulation half. */
    method GameLoop(keys: set<string>)
      modifies this, players, moving, falling
      ensures Snapshot() == Tick(cfg, old(Snapshot()), keys)
    {
      var seen := state;
      var seenAtDoor := atDoor;
      animTimer := animTimer + 1;
      if seen != Playing {
        return;
      }
      StepPlatforms();
      ghost var start := Snapshot();
      var i := 0;
      while i < players.Length
        invariant 0 <= i <= players.Length
        invariant PlayersPass(cfg, Snapshot(), keys, seen, i) == PlayersPass(cfg, start, keys, seen, 0)
      {
        StepPlayer(i, keys, seen);
        i := i + 1;
      }
      if |seenAtDoor| == PLAYER_COUNT {
        state := Won;
      }
      camera := UpdateCameraMultiplayer(camera, Tracks(players[..]), cfg.canvasWidth, PLAYER_WIDTH, CAMERA_SMOOTHING);
    }
  }
}
