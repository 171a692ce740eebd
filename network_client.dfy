/**
 * The networked level's client as the browser runs it: the players map,
 * its insertion order and the key flag are mutable fields that the socket
 * handlers and the local tick update in place. Every method is proved to do
 * exactly what the value-level definitions in NetSpec say.
 */
module NetEngine {
  import opened Common
  import opened Physics
  import opened Camera
  import opened Input
  import opened Rules
  import opened NetSpec

  class NetClient {
    const lay: Layout
    var players: map<int, Player>
    var order: seq<int>
    var keyCollected: bool
    var state: NetState
    var myPlayerId: Option<int>
    var camera: Cam
    var animTimer: int

    /** The client as a value. */
    ghost function Snapshot(): Client
      reads this
    {
      Client(players, order, keyCollected, state, myPlayerId, camera, animTimer)
    }

    /**
     * A client in the lobby: no players, no id, the camera home, with the
     * key and the door placed as the browser places them, their top edge on
     * the ground line of a canvas of the given size.
     */
    constructor (canvasWidth: real, canvasHeight: real)
      ensures lay == TableLayout(canvasWidth, canvasHeight)
      ensures lay.key.y == lay.groundY == canvasHeight - GROUND_OFFSET && lay.door.y == lay.groundY
      ensures Snapshot() == Client(map[], [], false, Lobby, None, Cam(0.0, 0.0), 0)
    {
      lay := TableLayout(canvasWidth, canvasHeight);
      players, order, keyCollected := map[], [], false;
      state, myPlayerId, camera, animTimer := Lobby, None, Cam(0.0, 0.0), 0;
    }

    /**
     * A client in the lobby on the corrected layout: the key and the door
     * stand on the ground line, so a walking player can reach them.
     */
    constructor Grounded(canvasWidth: real, canvasHeight: real)
      ensures lay == GroundedLayout(canvasWidth, canvasHeight)
      ensures lay.key.y + lay.key.height == lay.groundY && lay.door.y + lay.door.height == lay.groundY
      ensures Snapshot() == Client(map[], [], false, Lobby, None, Cam(0.0, 0.0), 0)
    {
      lay := GroundedLayout(canvasWidth, canvasHeight);
      players, order, keyCollected := map[], [], false;
      state, myPlayerId, camera, animTimer := Lobby, None, Cam(0.0, 0.0), 0;
    }

    /** `room-state`: take the id, start playing, clear the map and set every listed player. */
    method RoomState(playerId: int, ps: seq<Player>)
      modifies this
      ensures Snapshot() == NetSpec.RoomState(old(Snapshot()), playerId, ps)
    {
      myPlayerId := Some(playerId);
      state := Playing;
      players, order := map[], [];
      var k := 0;
      while k < |ps|
        invariant 0 <= k <= |ps|
        invariant (players, order) == Seated(ps[..k])
        invariant myPlayerId == Some(playerId) && state == Playing
        invariant keyCollected == old(keyCollected) && camera == old(camera) && animTimer == old(animTimer)
      {
        var p := ps[k];
        if p.id !in players {
          order := order + [p.id];
        }
        players := players[p.id := Admit(p)];
        assert ps[..k + 1][..k] == ps[..k];
        k := k + 1;
      }
      assert ps[..|ps|] == ps;
    }

    /** `player-moved`: patch a known player's record in place. */
    method PlayerMoved(d: Patch)
      modifies this
      ensures Snapshot() == old(Snapshot()).(players := ApplyPatch(old(players), d))
    {
      if d.playerId in players {
        var p := players[d.playerId];
        var body := p.body;
        if d.x.Some? { body := body.(x := d.x.value); }
        if d.y.Some? { body := body.(y := d.y.value); }
        if d.vx.Some? { body := body.(vx := d.vx.value); }
        if d.vy.Some? { body := body.(vy := d.vy.value); }
        if d.onGround.Some? { body := body.(onGround := d.onGround.value); }
        var facingRight := p.facingRight;
        if d.facingRight.Some? { facingRight := d.facingRight.value; }
        var animFrame := p.animFrame;
        if d.animFrame.Some? { animFrame := d.animFrame.value; }
        var dead := p.dead;
        if d.dead.Some? { dead := d.dead.value; }
        assert body == PatchedBody(p.body, d);
        p := p.(body := body, facingRight := facingRight, animFrame := animFrame, dead := dead);
        assert p == Patched(players[d.playerId], d);
        players := players[d.playerId := p];
      }
      assert players == ApplyPatch(old(players), d);
    }

    /** The respawn timeout set when the own player fell out. */
    method RespawnTimer(id: int)
      modifies this
      ensures Snapshot() == Respawn(old(Snapshot()), id, lay.groundY)
    {
      if id in players {
        var p := players[id];
        p := p.(dead := false);
        var spawn := GetSpawnPosition(p.id, lay.groundY);
        p := p.(body := p.body.(x := spawn.x, y := spawn.y));
        players := players[id := p];
      }
    }

    /** The own player's input, motion, animation and ground clamp for tick `t`. */
    method MoveOwnPlayer(p0: Player, keys: set<string>, t: int) returns (p: Player)
      ensures p == MoveOwn(p0, keys, t, lay.groundY)
    {
      p := p0;

      // Input: left beats right; jump only from the ground.
      if IsLeftPressed(keys) {
        p := p.(body := p.body.(vx := -MOVE_SPEED), facingRight := false);
      } else if IsRightPressed(keys) {
        p := p.(body := p.body.(vx := MOVE_SPEED), facingRight := true);
      } else {
        p := p.(body := p.body.(vx := 0.0));
      }
      if IsJumpPressed(keys) && p.body.onGround {
        p := p.(body := p.body.(vy := JUMP_FORCE, onGround := false));
      }
      assert p == Steer(p0, keys);

      // Gravity and motion, animation, the ground.
      p := p.(body := p.body.(vy := p.body.vy + GRAVITY));
      p := p.(body := p.body.(x := p.body.x + p.body.vx));
      p := p.(body := p.body.(y := p.body.y + p.body.vy));
      assert p == Integrate(Steer(p0, keys), TUNING);
      p := Animate(p, t);
      if p.body.y + p.body.height >= lay.groundY {
        p := p.(body := p.body.(y := lay.groundY - p.body.height, vy := 0.0, onGround := true));
      }
    }

    /** One tick of the local loop; returns the events it sends to the server, in order. */
    method GameLoop(keys: set<string>, ready: bool) returns (events: seq<Event>)
      modifies this
      ensures (Snapshot(), events) == LocalStep(lay, old(Snapshot()), keys, ready)
    {
      ghost var c0 := Snapshot();
      events := [];
      if !ready || state != Playing || myPlayerId.None? || myPlayerId.value == 0 {
        return;
      }
      animTimer := animTimer + 1;
      var id := myPlayerId.value;
      if id !in players || players[id].dead {
        assert Snapshot() == c0.(animTimer := animTimer);
        return;
      }
      var p := MoveOwnPlayer(players[id], keys, animTimer);

      var collect := false;
      if !keyCollected && CheckCollision(p.Bounds(), lay.key) {
        keyCollected := true;
        collect := true;
      }
      var atDoor := keyCollected && CheckCollision(p.Bounds(), lay.door);
      var fell := false;
      if p.body.y > lay.canvasHeight + NetSpec.FALL_MARGIN {
        p := p.(dead := true);
        state := Dead;
        fell := true;
      }
      players := players[id := p];
      events := Outbox(collect, atDoor, fell, animTimer % SERVER_UPDATE_RATE as int == 0, p);
      camera := UpdateCameraMultiplayer(camera, Tracks(order, players), lay.canvasWidth, PLAYER_WIDTH, DEFAULT_SMOOTHING);
      assert keyCollected == (c0.keyCollected || collect) && state == (if fell then Dead else c0.state);
      assert players == c0.players[id := p];
      assert LocalStep(lay, c0, keys, ready) == (Snapshot(), events);
    }
  }
}
