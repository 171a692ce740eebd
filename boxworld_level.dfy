/**
 * The box level as the loop runs it: players and boxes are arrays updated in
 * place, one phase at a time; key, door set, state, camera and the pending
 * reset are fields. Every method is proved to do exactly what the
 * value-level definitions in BoxSpec say.
 */
module BoxEngine {
  import opened Common
  import opened Physics
  import opened Camera
  import opened Rules
  import opened Session
  import opened BoxSpec

  class BoxWorld {
    const cfg: Config
    const players: array<Player>
    const boxes: array<PushBox>
    var keyCollected: bool
    var atDoor: set<int>
    var state: GameState
    var camera: Cam
    var animTimer: int
    var deathTimer: Option<nat>
    var nextTimerId: nat

    /** The status fields as a value. */
    ghost function StatusNow(): Status
      reads this
    {
      Status(keyCollected, atDoor, state, camera, animTimer, deathTimer, nextTimerId)
    }

    /** The level as a value. */
    ghost function Snapshot(): Level
      reads this, players, boxes
    {
      Level(players[..], boxes[..], StatusNow())
    }

    /**
     * The level as first mounted: the four players at y = 400, the boxes as
     * laid out, playing. The mount effect records every box's id and position
     * as its reset anchor, whatever anchors `cfg` carried.
     */
    constructor (cfg: Config, boxes0: seq<PushBox>)
      ensures this.cfg == cfg.(anchors := AnchorsOf(boxes0)) && players.Length == BoxSpec.PLAYER_COUNT
      ensures fresh(players) && fresh(boxes)
      ensures Snapshot() == Level([BoxSpec.NewPlayer(1, 50.0, 400.0), BoxSpec.NewPlayer(2, 100.0, 400.0),
                                   BoxSpec.NewPlayer(3, 150.0, 400.0), BoxSpec.NewPlayer(4, 200.0, 400.0)],
                                  boxes0, Status(false, {}, Playing, Cam(0.0, 0.0), 0, None, 0))
    {
      this.cfg := cfg.(anchors := AnchorsOf(boxes0));
      players := new Player[BoxSpec.PLAYER_COUNT][BoxSpec.NewPlayer(1, 50.0, 400.0), BoxSpec.NewPlayer(2, 100.0, 400.0),
                                                  BoxSpec.NewPlayer(3, 150.0, 400.0), BoxSpec.NewPlayer(4, 200.0, 400.0)];
      boxes := new PushBox[|boxes0|](k requires 0 <= k < |boxes0| => boxes0[k]);
      keyCollected, atDoor, state, camera := false, {}, Playing, Cam(0.0, 0.0);
      animTimer, deathTimer, nextTimerId := 0, None, 0;
    }

    /** `handleDeath`, with the state the tick started from. */
    method HandleDeath(seen: GameState)
      modifies this
      ensures StatusNow() == Session.HandleDeath(old(StatusNow()), seen)
    {
      if seen == Dead {
        return;
      }
      state := Dead;
      deathTimer := Some(nextTimerId);
      nextTimerId := nextTimerId + 1;
    }

    /** `resetGame`. */
    method ResetGame()
      requires players.Length == BoxSpec.PLAYER_COUNT
      modifies this, players, boxes
      ensures Snapshot() == BoxSpec.ResetGame(cfg, old(Snapshot()))
    {
      var y := cfg.groundY - 100.0;
      players[0] := BoxSpec.NewPlayer(1, 50.0, y);
      players[1] := BoxSpec.NewPlayer(2, 100.0, y);
      players[2] := BoxSpec.NewPlayer(3, 150.0, y);
      players[3] := BoxSpec.NewPlayer(4, 200.0, y);
      assert players[..] == [BoxSpec.NewPlayer(1, 50.0, y), BoxSpec.NewPlayer(2, 100.0, y),
                             BoxSpec.NewPlayer(3, 150.0, y), BoxSpec.NewPlayer(4, 200.0, y)];
      var k := 0;
      while k < boxes.Length
        invariant 0 <= k <= boxes.Length
        invariant forall m :: 0 <= m < k ==> boxes[m] == RestoreBox(cfg.anchors, old(boxes[m]))
        invariant forall m :: k <= m < boxes.Length ==> boxes[m] == old(boxes[m])
        modifies boxes
      {
        var found := FindAnchor(cfg.anchors, boxes[k].id, 0);
        if found.Some? {
          var a := cfg.anchors[found.value];
          boxes[k] := boxes[k].(body := boxes[k].body.(x := a.x, y := a.y, vx := 0.0, vy := 0.0, onGround := false));
        }
        k := k + 1;
      }
      keyCollected := false;
      camera := Cam(0.0, 0.0);
      atDoor := {};
      state := Playing;
    }

    /** The reset timeout `id` fires. */
    method TimerFires(id: nat)
      requires players.Length == BoxSpec.PLAYER_COUNT
      modifies this, players, boxes
      ensures Snapshot() == BoxSpec.TimerFires(cfg, old(Snapshot()), id)
    {
      if deathTimer == Some(id) {
        ResetGame();
        deathTimer := None;
      }
    }

    /** Resolves `b` against every platform in order. */
    method CollidePlatforms(b: Body) returns (r: Body)
      ensures r == ResolvePlatforms(b, cfg.platforms, 0)
    {
      r := b;
      var k := 0;
      while k < |cfg.platforms|
        invariant 0 <= k <= |cfg.platforms|
        invariant ResolvePlatforms(r, cfg.platforms, k) == ResolvePlatforms(b, cfg.platforms, 0)
      {
        r := ResolvePlatform(r, cfg.platforms[k]);
        k := k + 1;
      }
    }

    /** Box `i` against every box with another id; both boxes of a pair are updated. */
    method PairBoxes(i: nat)
      requires i < boxes.Length
      modifies boxes
      ensures boxes[..] == BoxPairPass(old(boxes[..]), i, 0)
    {
      var j := 0;
      while j < boxes.Length
        invariant 0 <= j <= boxes.Length
        invariant BoxPairPass(boxes[..], i, j) == BoxPairPass(old(boxes[..]), i, 0)
      {
        if boxes[j].id != boxes[i].id {
          ghost var bs := boxes[..];
          var pair := BoxPair(boxes[i].body, boxes[j].body);
          boxes[i] := boxes[i].(body := pair.0);
          boxes[j] := boxes[j].(body := pair.1);
          assert boxes[..] == bs[i := bs[i].(body := pair.0)][j := bs[j].(body := pair.1)];
        }
        j := j + 1;
      }
    }

    /** Box `i`'s whole update. */
    method StepBox(i: nat)
      requires i < boxes.Length
      modifies boxes
      ensures boxes[..] == BoxSpec.StepBox(cfg, old(boxes[..]), i)
    {
      var b := CollidePlatforms(BoxStart(boxes[i].body));
      boxes[i] := boxes[i].(body := b);
      PairBoxes(i);
      var box := boxes[i];
      if box.body.y > cfg.canvasHeight + RESPAWN_MARGIN {
        var found := FindAnchor(cfg.anchors, box.id, 0);
        if found.Some? {
          var a := cfg.anchors[found.value];
          box := box.(body := box.body.(x := a.x, y := a.y, vx := 0.0, vy := 0.0));
        }
      }
      if box.body.x < 0.0 {
        box := box.(body := box.body.(x := 0.0));
      }
      boxes[i] := box;
    }

    /** Every box's update in order. */
    method StepBoxes()
      modifies boxes
      ensures boxes[..] == BoxesPass(cfg, old(boxes[..]), 0)
    {
      var i := 0;
      while i < boxes.Length
        invariant 0 <= i <= boxes.Length
        invariant BoxesPass(cfg, boxes[..], i) == BoxesPass(cfg, old(boxes[..]), 0)
      {
        StepBox(i);
        i := i + 1;
      }
    }

    /** The player `p` stands on every box its feet rest on. */
    method RideBoxes(p: Player) returns (r: Player)
      ensures r == BoxSpec.RideBoxes(p, boxes[..], 0)
    {
      r := p;
      var k := 0;
      while k < boxes.Length
        invariant 0 <= k <= boxes.Length
        invariant BoxSpec.RideBoxes(r, boxes[..], k) == BoxSpec.RideBoxes(p, boxes[..], 0)
      {
        var box := boxes[k].body;
        if StandsOnBox(r.body, box) {
          r := r.(body := LandOn(r.body, box.y));
          if box.vx != 0.0 {
            r := r.(body := r.body.(x := r.body.x + box.vx));
          }
        }
        k := k + 1;
      }
    }

    /** Player `i`, as `p`, rides every living other player its feet rest on. */
    method StackPlayer(i: nat, p: Player) returns (r: Player)
      ensures r == StackPass(p, players[..], i, BoxSpec.STACK_MARGIN, 0)
    {
      r := p;
      var j := 0;
      while j < players.Length
        invariant 0 <= j <= players.Length
        invariant StackPass(r, players[..], i, BoxSpec.STACK_MARGIN, j) == StackPass(p, players[..], i, BoxSpec.STACK_MARGIN, 0)
      {
        var other := players[j];
        if j != i && !other.dead && CheckPlayerStacking(r, other, BoxSpec.STACK_MARGIN) {
          r := StackOn(r, other);
        }
        j := j + 1;
      }
    }

    /** The player `p` against every box: flush against its side (setting it moving), or on or under it. */
    method PushBoxes(p: Player) returns (r: Player)
      modifies boxes
      ensures (r, boxes[..]) == PushBoxPass(p, old(boxes[..]), 0)
    {
      r := p;
      var k := 0;
      while k < boxes.Length
        invariant 0 <= k <= boxes.Length
        invariant PushBoxPass(r, boxes[..], k) == PushBoxPass(p, old(boxes[..]), 0)
      {
        ghost var r0, bs0 := r, boxes[..];
        var box := boxes[k].body;
        if CheckCollision(r.Bounds(), box.Bounds()) {
          var ov := Overlaps(r.Bounds(), box.Bounds());
          if ov.MinX() < ov.MinY() {
            if ov.left < ov.right {
              r := r.(body := r.body.(x := box.x - r.body.width));
              if r.body.vx > 0.0 {
                box := box.(vx := BOX_PUSH_SPEED);
              }
            } else {
              r := r.(body := r.body.(x := box.x + box.width));
              if r.body.vx < 0.0 {
                box := box.(vx := -BOX_PUSH_SPEED);
              }
            }
          } else if ov.top < ov.bottom && r.body.vy > 0.0 {
            r := r.(body := LandOn(r.body, box.y));
          } else if ov.bottom < ov.top && r.body.vy < 0.0 {
            r := r.(body := r.body.(y := box.y + box.height, vy := 0.0));
          }
        }
        boxes[k] := boxes[k].(body := box);
        assert (r, boxes[..]) == (PushBoxPair(r0, bs0[k].body).0, bs0[k := bs0[k].(body := PushBoxPair(r0, bs0[k].body).1)]);
        k := k + 1;
      }
    }

    /** Player `i`, as `p`, nudges every living other player it touches from the side. */
    method SoftPushPlayers(i: nat, p: Player, keys: set<string>) returns (r: Player)
      modifies players
      ensures (r, players[..]) == SoftPushPass(p, old(players[..]), i, keys, 0)
    {
      r := p;
      var j := 0;
      while j < players.Length
        invariant 0 <= j <= players.Length
        invariant SoftPushPass(r, players[..], i, keys, j) == SoftPushPass(p, old(players[..]), i, keys, 0)
      {
        var other := players[j];
        ghost var r0, ps0 := r, players[..];
        if j != i && !other.dead && !Stacked(r, other) {
          if CheckCollision(r.Bounds(), other.Bounds()) {
            var ov := Overlaps(r.Bounds(), other.Bounds());
            if ov.MinX() < ov.MinY() {
              var separation := ov.MinX() / 2.0 * PLAYER_SEPARATION;
              var c := BoxControls(r.id);
              if ov.left < ov.right {
                var vx := if r.body.vx > 0.0 && c.right in keys then BoxSpec.PUSH_FORCE else other.body.vx;
                r := r.(body := r.body.(x := r.body.x - separation));
                players[j] := other.(body := other.body.(x := other.body.x + separation, vx := vx));
              } else {
                var vx := if r.body.vx < 0.0 && c.left in keys then -BoxSpec.PUSH_FORCE else other.body.vx;
                r := r.(body := r.body.(x := r.body.x + separation));
                players[j] := other.(body := other.body.(x := other.body.x - separation, vx := vx));
              }
            }
          }
          assert r == SoftPush(r0, other, keys).0 && players[..] == ps0[j := SoftPush(r0, other, keys).1];
        } else {
          assert r == r0 && players[..] == ps0;
        }
        j := j + 1;
      }
    }

    /** Every danger button that overlaps `p` calls `handleDeath`. */
    method CheckHazards(p: Player, seen: GameState)
      modifies this
      ensures StatusNow() == HazardPass(old(StatusNow()), p.Bounds(), cfg.dangerButtons, seen, 0)
    {
      var k := 0;
      while k < |cfg.dangerButtons|
        invariant 0 <= k <= |cfg.dangerButtons|
        invariant HazardPass(StatusNow(), p.Bounds(), cfg.dangerButtons, seen, k) == HazardPass(old(StatusNow()), p.Bounds(), cfg.dangerButtons, seen, 0)
      {
        if CheckCollision(p.Bounds(), cfg.dangerButtons[k]) {
          HandleDeath(seen);
        }
        k := k + 1;
      }
    }

    /** The danger-button, key, door and fall checks for the stepped player `p`. */
    method Touch(p: Player, seen: GameState)
      modifies this
      ensures StatusNow() == Contacts(cfg, old(StatusNow()), p, seen)
    {
      CheckHazards(p, seen);
      if !keyCollected && CheckCollision(p.Bounds(), cfg.key) {
        keyCollected := true;
      }
      if keyCollected && CheckCollision(p.Bounds(), cfg.door) {
        atDoor := atDoor + {p.id};
      } else {
        atDoor := atDoor - {p.id};
      }
      if p.body.y > cfg.canvasHeight + BoxSpec.FALL_MARGIN {
        HandleDeath(seen);
      }
    }

    /** One player's step. */
    method StepPlayer(i: nat, keys: set<string>, seen: GameState)
      requires i < players.Length
      modifies this, players, boxes
      ensures Snapshot() == PlayerStep(cfg, old(Snapshot()), i, keys, seen)
    {
      var p := players[i];
      if p.dead {
        return;
      }
      p := BeginStep(p, keys, BoxControls(p.id), BoxSpec.TUNING, animTimer);
      p := RideBoxes(p);
      p := StackPlayer(i, p);
      p := PushBoxes(p);
      p := SoftPushPlayers(i, p, keys);
      var b := CollidePlatforms(p.body);
      p := p.(body := b);
      Touch(p, seen);
      if p.body.x < 0.0 {
        p := p.(body := p.body.(x := 0.0));
      }
      players[i] := p;
    }

    /** One tick of `gameLoop`'s simulation half. */
    method GameLoop(keys: set<string>)
      modifies this, players, boxes
      ensures Snapshot() == Tick(cfg, old(Snapshot()), keys)
    {
      var seen := state;
      var seenAtDoor := atDoor;
      animTimer := animTimer + 1;
      if seen != Playing {
        return;
      }
      StepBoxes();
      ghost var start := Snapshot();
      var i := 0;
      while i < players.Length
        invariant 0 <= i <= players.Length
        invariant PlayersPass(cfg, Snapshot(), keys, seen, i) == PlayersPass(cfg, start, keys, seen, 0)
      {
        StepPlayer(i, keys, seen);
        i := i + 1;
      }
      if |seenAtDoor| == BoxSpec.PLAYER_COUNT {
        state := Won;
      }
      camera := UpdateCameraMultiplayer(camera, LivingTracks(players[..]), cfg.canvasWidth,
                                        BoxSpec.PLAYER_WIDTH, BoxSpec.CAMERA_SMOOTHING);
    }
  }
}
