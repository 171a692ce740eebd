/**
 * The networked level's client (MultiPlayerWorld1) as values: the local
 * tick moves only this client's own player (input, gravity, a flat ground,
 * key, door, falling out), reports what happened as socket events, and
 * sends its state every third tick; a `player-moved` message patches another
 * player's record. Physics constants are the shared table's (gravity 0.6,
 * jump -10, speed 4, player 45 by 55).
 */
module NetSpec {
  import opened Common
  import opened Physics
  import opened Camera
  import opened Input
  import opened Rules

  const TUNING: Tuning := Tuning(GRAVITY, JUMP_FORCE, MOVE_SPEED)
  /** Distance between the canvas height and the ground line. */
  const GROUND_OFFSET: real := 40.0
  /** Fall-out line below the canvas. */
  const FALL_MARGIN: real := 50.0

  datatype NetState = Lobby | Playing | Won | Dead

  /** The ground line, key, door and canvas size the local tick uses. */
  datatype Layout = Layout(groundY: real, key: Rect, door: Rect, canvasWidth: real, canvasHeight: real)

  /**
   * The client's state: the players by id (a JavaScript `Map`, with its
   * insertion order in `order`), the key flag, the React game state, this
   * client's player id, the camera and the tick counter.
   */
  datatype Client = Client(players: map<int, Player>, order: seq<int>, keyCollected: bool, state: NetState,
                           myPlayerId: Option<int>, camera: Cam, animTimer: int)

  /** What the tick sends to the server. */
  datatype Event =
    | KeyCollected
    | AtDoor
    | Died
    | Move(x: real, y: real, vx: real, vy: real, onGround: bool, facingRight: bool, animFrame: int, dead: bool)

  function MoveOf(p: Player): Event
  {
    Move(p.body.x, p.body.y, p.body.vx, p.body.vy, p.body.onGround, p.facingRight, p.animFrame, p.dead)
  }

  /** Every player record has the shared dimensions (the room state sets them; patches never change them). */
  predicate WellSized(c: Client)
  {
    forall id :: id in c.players ==> c.players[id].body.width == PLAYER_WIDTH && c.players[id].body.height == PLAYER_HEIGHT
  }

  // ---------------------------------------------------------------------
  // The own player's motion.

  /** Left beats right; jump only from the ground. */
  function Steer(p: Player, keys: set<string>): Player
  {
    var moved :=
      if IsLeftPressed(keys) then p.(body := p.body.(vx := -MOVE_SPEED), facingRight := false)
      else if IsRightPressed(keys) then p.(body := p.body.(vx := MOVE_SPEED), facingRight := true)
      else p.(body := p.body.(vx := 0.0));
    if IsJumpPressed(keys) && moved.body.onGround then moved.(body := moved.body.(vy := JUMP_FORCE, onGround := false))
    else moved
  }

  /** The flat ground: feet at or below the line snap onto it. */
  function GroundClamp(b: Body, groundY: real): Body
  {
    if b.y + b.height >= groundY then LandOn(b, groundY) else b
  }

  /** Input, integration, animation and the ground clamp, in source order. */
  function MoveOwn(p: Player, keys: set<string>, animTimer: int, groundY: real): Player
  {
    var q := Animate(Integrate(Steer(p, keys), TUNING), animTimer);
    q.(body := GroundClamp(q.body, groundY))
  }

  /**
   * The own player's speed is -4, 0 or 4, left winning over right; it jumps
   * exactly when a jump key is held on the ground; gravity adds 0.6. After
   * the clamp its feet are never below the ground line, and a clamped
   * player stands on the line at rest and grounded; an unclamped one is where
   * its speed took it.
   */
  lemma MoveOwnMeaning(p: Player, keys: set<string>, animTimer: int, groundY: real)
    ensures var r := MoveOwn(p, keys, animTimer, groundY);
            var vy := (if IsJumpPressed(keys) && p.body.onGround then JUMP_FORCE else p.body.vy) + GRAVITY;
            && r.id == p.id && r.dead == p.dead && r.body.height == p.body.height && r.body.width == p.body.width
            && (IsLeftPressed(keys) ==> r.body.vx == -MOVE_SPEED && !r.facingRight)
            && (!IsLeftPressed(keys) && IsRightPressed(keys) ==> r.body.vx == MOVE_SPEED && r.facingRight)
            && (!IsLeftPressed(keys) && !IsRightPressed(keys) ==> r.body.vx == 0.0 && r.facingRight == p.facingRight)
            && r.body.x == p.body.x + r.body.vx
            && r.body.y + r.body.height <= groundY
            && (p.body.y + vy + p.body.height >= groundY ==> r.body.Feet() == groundY && r.body.vy == 0.0 && r.body.onGround)
            && (p.body.y + vy + p.body.height < groundY ==>
                  r.body.y == p.body.y + vy && r.body.vy == vy
                  && r.body.onGround == (p.body.onGround && !IsJumpPressed(keys)))
  {
  }

  // ---------------------------------------------------------------------
  // The local tick.

  /** The players' positions for the camera, in the map's insertion order. */
  function Tracks(order: seq<int>, players: map<int, Player>): (r: seq<Tracked>)
    ensures |r| <= |order|
    ensures (forall k :: 0 <= k < |order| ==> order[k] in players) ==> |r| == |order|
  {
    if |order| == 0 then []
    else
      var rest := Tracks(order[..|order| - 1], players);
      var id := order[|order| - 1];
      if id in players then rest + [Tracked(players[id].body.x, players[id].body.y, Some(players[id].body.width))]
      else rest
  }

  /** When every ordered id is in the map, entry k is the position and width of the k-th inserted player. */
  lemma {:induction false} TracksMeaning(order: seq<int>, players: map<int, Player>)
    requires forall k :: 0 <= k < |order| ==> order[k] in players
    ensures |Tracks(order, players)| == |order|
    ensures forall k :: 0 <= k < |order| ==>
              Tracks(order, players)[k]
              == Tracked(players[order[k]].body.x, players[order[k]].body.y, Some(players[order[k]].body.width))
  {
    if |order| > 0 {
      var init := order[..|order| - 1];
      assert forall k :: 0 <= k < |init| ==> init[k] == order[k];
      TracksMeaning(init, players);
    }
  }

  /**
   * The events of one tick, in the order the loop emits them: the key, the
   * door, the death, then the state update on sending ticks.
   */
  function Outbox(collect: bool, atDoor: bool, fell: bool, send: bool, p: Player): (r: seq<Event>)
    ensures KeyCollected in r <==> collect
    ensures AtDoor in r <==> atDoor
    ensures Died in r <==> fell
    ensures forall e :: e in r && e.Move? ==> send && e == MoveOf(p)
    ensures send ==> MoveOf(p) in r
    ensures |r| <= 4
  {
    (if collect then [KeyCollected] else []) + (if atDoor then [AtDoor] else [])
    + (if fell then [Died] else []) + (if send then [MoveOf(p)] else [])
  }

  /**
   * The local tick. `ready` says the canvas, its context and the images are
   * there. Nothing happens unless the level is playing and this client has a
   * (non-zero) player id; the tick counter then advances, and the rest needs
   * the own player to exist and be alive.
   */
  function LocalStep(lay: Layout, c: Client, keys: set<string>, ready: bool): (Client, seq<Event>)
  {
    if !ready || c.state != Playing || c.myPlayerId.None? || c.myPlayerId.value == 0 then (c, [])
    else
      var t := c.animTimer + 1;
      var id := c.myPlayerId.value;
      if id !in c.players || c.players[id].dead then (c.(animTimer := t), [])
      else
        var p := MoveOwn(c.players[id], keys, t, lay.groundY);
        var collect := !c.keyCollected && CheckCollision(p.Bounds(), lay.key);
        var hasKey := c.keyCollected || collect;
        var atDoor := hasKey && CheckCollision(p.Bounds(), lay.door);
        var fell := p.body.y > lay.canvasHeight + FALL_MARGIN;
        var p' := if fell then p.(dead := true) else p;
        var players := c.players[id := p'];
        var events := Outbox(collect, atDoor, fell, t % SERVER_UPDATE_RATE as int == 0, p');
        (Client(players, c.order, hasKey, if fell then Dead else c.state, c.myPlayerId,
                UpdateCameraMultiplayer(c.camera, Tracks(c.order, players), lay.canvasWidth, PLAYER_WIDTH, DEFAULT_SMOOTHING), t),
         events)
  }

  /** The tick runs only while playing with a player id set; otherwise it changes nothing at all. */
  predicate Runs(c: Client, ready: bool)
  {
    ready && c.state == Playing && c.myPlayerId.Some? && c.myPlayerId.value != 0
  }

  /**
   * Outside play, without a player id (or with id 0), or before the canvas
   * and images are ready, the tick changes nothing and sends nothing. With a
   * missing or dead own player it only advances the tick counter. Otherwise
   * only the own player's record, the key flag, the state, the camera and
   * the counter change, and the state changes only to dead.
   */
  lemma LocalStepGate(lay: Layout, c: Client, keys: set<string>, ready: bool)
    ensures !Runs(c, ready) ==> LocalStep(lay, c, keys, ready) == (c, [])
    ensures Runs(c, ready) && (c.myPlayerId.value !in c.players || c.players[c.myPlayerId.value].dead) ==>
              LocalStep(lay, c, keys, ready) == (c.(animTimer := c.animTimer + 1), [])
    ensures var (r, _) := LocalStep(lay, c, keys, ready);
            && r.order == c.order && r.myPlayerId == c.myPlayerId && r.players.Keys == c.players.Keys
            && (forall id :: id in c.players && Some(id) != c.myPlayerId ==> r.players[id] == c.players[id])
            && (r.state == c.state || r.state == Dead)
            && (c.keyCollected ==> r.keyCollected)
    ensures WellSized(c) ==> WellSized(LocalStep(lay, c, keys, ready).0)
  {
    if Runs(c, ready) && c.myPlayerId.value in c.players && !c.players[c.myPlayerId.value].dead {
      MoveOwnMeaning(c.players[c.myPlayerId.value], keys, c.animTimer + 1, lay.groundY);
    }
  }

  /**
   * A running tick with a living own player: the key event is sent exactly
   * when the key was not yet collected and the player now touches it; the
   * door event whenever the player holds the key at the door; the state is
   * sent exactly on ticks whose counter is a multiple of 3, carrying the
   * player's new state.
   */
  lemma LocalStepEvents(lay: Layout, c: Client, keys: set<string>, ready: bool)
    requires Runs(c, ready) && c.myPlayerId.value in c.players && !c.players[c.myPlayerId.value].dead
    ensures LocalStep(lay, c, keys, ready).0.animTimer == c.animTimer + 1
    ensures var (r, events) := LocalStep(lay, c, keys, ready);
            var p := r.players[c.myPlayerId.value];
            && (KeyCollected in events <==> !c.keyCollected && CheckCollision(p.Bounds(), lay.key))
            && (r.keyCollected <==> c.keyCollected || KeyCollected in events)
    ensures var (r, events) := LocalStep(lay, c, keys, ready);
            var p := r.players[c.myPlayerId.value];
            AtDoor in events <==> r.keyCollected && CheckCollision(p.Bounds(), lay.door)
    ensures var (r, events) := LocalStep(lay, c, keys, ready);
            forall e :: e in events && e.Move? ==> r.animTimer % SERVER_UPDATE_RATE as int == 0
    ensures var (r, events) := LocalStep(lay, c, keys, ready);
            var p := r.players[c.myPlayerId.value];
            && (r.animTimer % SERVER_UPDATE_RATE as int == 0 ==> MoveOf(p) in events)
            && (Died in events <==> p.dead)
            && p.body.y + p.body.height <= lay.groundY
  {
    MoveOwnMeaning(c.players[c.myPlayerId.value], keys, c.animTimer + 1, lay.groundY);
  }

  /**
   * With the ground line no lower than the fall-out line, the own player can
   * never fall out: the ground clamp catches it first, so the tick never
   * reports a death.
   */
  lemma NoFallOut(lay: Layout, c: Client, keys: set<string>, ready: bool)
    requires WellSized(c) && lay.groundY <= lay.canvasHeight + FALL_MARGIN
    ensures var (r, events) := LocalStep(lay, c, keys, ready);
            Died !in events && (r.state == Dead ==> c.state == Dead)
  {
    if Runs(c, ready) && c.myPlayerId.value in c.players && !c.players[c.myPlayerId.value].dead {
      var p0 := c.players[c.myPlayerId.value];
      MoveOwnMeaning(p0, keys, c.animTimer + 1, lay.groundY);
    }
  }

  /** A run of ticks, each with its held keys and readiness. */
  datatype Frame = Frame(keys: set<string>, ready: bool)

  function Run(lay: Layout, c: Client, frames: seq<Frame>): (Client, seq<Event>)
    decreases |frames|
  {
    if |frames| == 0 then (c, [])
    else
      var (c1, e1) := LocalStep(lay, c, frames[0].keys, frames[0].ready);
      var (c2, e2) := Run(lay, c1, frames[1..]);
      (c2, e1 + e2)
  }

  function CountKeyEvents(events: seq<Event>): nat
  {
    if |events| == 0 then 0 else (if events[0] == KeyCollected then 1 else 0) + CountKeyEvents(events[1..])
  }

  lemma {:induction false} CountKeyEventsConcat(a: seq<Event>, b: seq<Event>)
    ensures CountKeyEvents(a + b) == CountKeyEvents(a) + CountKeyEvents(b)
    decreases |a|
  {
    if |a| > 0 {
      assert (a + b)[0] == a[0] && (a + b)[1..] == a[1..] + b;
      CountKeyEventsConcat(a[1..], b);
    } else {
      assert a + b == b;
    }
  }

  /** The outbox holds the key event exactly once when the key was collected this tick, else not at all. */
  lemma OutboxKeyCount(collect: bool, atDoor: bool, fell: bool, send: bool, p: Player)
    ensures CountKeyEvents(Outbox(collect, atDoor, fell, send, p)) == if collect then 1 else 0
  {
    var e1: seq<Event> := if collect then [KeyCollected] else [];
    var e2: seq<Event> := if atDoor then [AtDoor] else [];
    var e3: seq<Event> := if fell then [Died] else [];
    var e4: seq<Event> := if send then [MoveOf(p)] else [];
    assert Outbox(collect, atDoor, fell, send, p) == e1 + e2 + e3 + e4;
    CountKeyEventsConcat(e1 + e2 + e3, e4);
    CountKeyEventsConcat(e1 + e2, e3);
    CountKeyEventsConcat(e1, e2);
  }

  lemma StepKeyEvents(lay: Layout, c: Client, keys: set<string>, ready: bool)
    ensures var (r, events) := LocalStep(lay, c, keys, ready);
            && CountKeyEvents(events) <= (if c.keyCollected then 0 else 1)
            && (CountKeyEvents(events) > 0 ==> r.keyCollected)
            && (c.keyCollected ==> r.keyCollected)
  {
    if Runs(c, ready) && c.myPlayerId.value in c.players && !c.players[c.myPlayerId.value].dead {
      var id := c.myPlayerId.value;
      var t := c.animTimer + 1;
      var p := MoveOwn(c.players[id], keys, t, lay.groundY);
      var collect := !c.keyCollected && CheckCollision(p.Bounds(), lay.key);
      var atDoor := (c.keyCollected || collect) && CheckCollision(p.Bounds(), lay.door);
      var fell := p.body.y > lay.canvasHeight + FALL_MARGIN;
      var p' := if fell then p.(dead := true) else p;
      assert LocalStep(lay, c, keys, ready).1 == Outbox(collect, atDoor, fell, t % SERVER_UPDATE_RATE as int == 0, p');
      OutboxKeyCount(collect, atDoor, fell, t % SERVER_UPDATE_RATE as int == 0, p');
    }
  }

  /**
   * Over any run of ticks the key event is sent at most once, and never
   * once the key is collected locally; the key stays collected.
   */
  lemma {:induction false} KeyEventAtMostOnce(lay: Layout, c: Client, frames: seq<Frame>)
    ensures var (r, events) := Run(lay, c, frames);
            && CountKeyEvents(events) <= (if c.keyCollected then 0 else 1)
            && (c.keyCollected ==> r.keyCollected)
    decreases |frames|
  {
    if |frames| > 0 {
      var (c1, e1) := LocalStep(lay, c, frames[0].keys, frames[0].ready);
      StepKeyEvents(lay, c, frames[0].keys, frames[0].ready);
      KeyEventAtMostOnce(lay, c1, frames[1..]);
      var (c2, e2) := Run(lay, c1, frames[1..]);
      CountKeyEventsConcat(e1, e2);
    }
  }

  // ---------------------------------------------------------------------
  // The room state: the server's player list replaces the local one.

  /** The record stored for a listed player: the shared size, riding nobody. */
  function Admit(p: Player): (r: Player)
    ensures r.body.width == PLAYER_WIDTH && r.body.height == PLAYER_HEIGHT && r.standingOnPlayer.None?
    ensures r.id == p.id && r.body.x == p.body.x && r.body.y == p.body.y && r.dead == p.dead
    ensures r.(body := p.body, standingOnPlayer := p.standingOnPlayer) == p
    ensures r.body.(width := p.body.width, height := p.body.height) == p.body
  {
    p.(body := p.body.(width := PLAYER_WIDTH, height := PLAYER_HEIGHT), standingOnPlayer := None)
  }

  /** `Map.set`: a new id goes to the end of the insertion order, a known id keeps its place. */
  function Seat(players: map<int, Player>, order: seq<int>, p: Player): (map<int, Player>, seq<int>)
  {
    (players[p.id := Admit(p)], if p.id in players then order else order + [p.id])
  }

  /** The map after clearing it and setting every listed player in turn. */
  function Seated(ps: seq<Player>): (map<int, Player>, seq<int>)
    decreases |ps|
  {
    if |ps| == 0 then (map[], [])
    else
      var (players, order) := Seated(ps[..|ps| - 1]);
      Seat(players, order, ps[|ps| - 1])
  }

  /** The insertion order lists every key of the map exactly once. */
  predicate OrderLists(players: map<int, Player>, order: seq<int>)
  {
    && (forall i, j :: 0 <= i < j < |order| ==> order[i] != order[j])
    && (forall k :: 0 <= k < |order| ==> order[k] in players)
    && (forall id :: id in players ==> id in order)
  }

  predicate DistinctIds(ps: seq<Player>)
  {
    forall i, j :: 0 <= i < j < |ps| ==> ps[i].id != ps[j].id
  }

  /** Every listed id, and no other, is a key; each record has the shared size and rides nobody. */
  lemma {:induction false} SeatedKeys(ps: seq<Player>)
    ensures var (players, _) := Seated(ps);
            && (forall id :: id in players <==> exists k :: 0 <= k < |ps| && ps[k].id == id)
            && (forall id :: id in players ==>
                  players[id].body.width == PLAYER_WIDTH && players[id].body.height == PLAYER_HEIGHT
                  && players[id].standingOnPlayer.None?)
            && (|ps| > 0 ==> players[ps[|ps| - 1].id] == Admit(ps[|ps| - 1]))
    decreases |ps|
  {
    if |ps| > 0 {
      var init := ps[..|ps| - 1];
      SeatedKeys(init);
      var (m0, _) := Seated(init);
      var (players, _) := Seated(ps);
      forall id
        ensures id in players <==> exists k :: 0 <= k < |ps| && ps[k].id == id
      {
        if id in m0 {
          var k :| 0 <= k < |init| && init[k].id == id;
          assert ps[k].id == id;
        }
        if k :| 0 <= k < |ps| && ps[k].id == id {
          if k < |init| {
            assert init[k].id == id;
          }
        }
      }
    }
  }

  /** The insertion order lists every key exactly once. */
  lemma {:induction false} SeatedOrder(ps: seq<Player>)
    ensures OrderLists(Seated(ps).0, Seated(ps).1)
    decreases |ps|
  {
    if |ps| > 0 {
      SeatedOrder(ps[..|ps| - 1]);
    }
  }

  /** With distinct ids the insertion order is the list's order and each record is that player's. */
  lemma {:induction false} SeatedDistinct(ps: seq<Player>)
    requires DistinctIds(ps)
    ensures var (players, order) := Seated(ps);
            |order| == |ps| && (forall k :: 0 <= k < |ps| ==> order[k] == ps[k].id && ps[k].id in players && players[ps[k].id] == Admit(ps[k]))
    decreases |ps|
  {
    if |ps| > 0 {
      var init := ps[..|ps| - 1];
      var last := ps[|ps| - 1];
      assert DistinctIds(init);
      SeatedDistinct(init);
      SeatedKeys(init);
      var (m0, o0) := Seated(init);
      assert forall k :: 0 <= k < |init| ==> init[k] == ps[k];
      assert last.id !in m0;
      var (players, order) := Seated(ps);
      forall k | 0 <= k < |ps|
        ensures order[k] == ps[k].id && ps[k].id in players && players[ps[k].id] == Admit(ps[k])
      {
        if k < |init| {
          assert init[k] == ps[k];
        }
      }
    }
  }

  /** `room-state`: this client's id, the state playing, and the listed players replacing the map. */
  function RoomState(c: Client, playerId: int, ps: seq<Player>): Client
  {
    var (players, order) := Seated(ps);
    c.(players := players, order := order, state := Playing, myPlayerId := Some(playerId))
  }

  /**
   * After the room state the client is playing with its id set, every
   * player has the shared size (so the fall-out lemma applies), and the
   * camera tracks each listed player once.
   */
  lemma RoomStateMeaning(c: Client, playerId: int, ps: seq<Player>)
    requires playerId != 0
    ensures var r := RoomState(c, playerId, ps);
            && Runs(r, true) && WellSized(r)
            && (forall id :: id in r.players <==> exists k :: 0 <= k < |ps| && ps[k].id == id)
            && |Tracks(r.order, r.players)| == |r.order|
            && (DistinctIds(ps) ==> |r.order| == |ps|)
            && r.keyCollected == c.keyCollected && r.animTimer == c.animTimer && r.camera == c.camera
  {
    SeatedKeys(ps);
    SeatedOrder(ps);
    if DistinctIds(ps) {
      SeatedDistinct(ps);
    }
  }

  // ---------------------------------------------------------------------
  // Respawn and the inbound patch.

  /** The respawn timeout after falling out: alive again at the player's spawn slot. */
  function Respawn(c: Client, id: int, groundY: real): Client
  {
    if id in c.players then
      var p := c.players[id];
      var spawn := GetSpawnPosition(p.id, groundY);
      c.(players := c.players[id := p.(dead := false, body := p.body.(x := spawn.x, y := spawn.y))])
    else c
  }

  /**
   * After the respawn the player is alive at its spawn slot, feet on the
   * ground line when it has the shared height; speeds and everything else
   * are untouched, and so is every other player.
   */
  lemma RespawnMeaning(c: Client, id: int, groundY: real)
    requires id in c.players && c.players[id].id == id
    ensures var r := Respawn(c, id, groundY).players;
            && r.Keys == c.players.Keys && !r[id].dead
            && r[id].body.x == GetSpawnPosition(id, groundY).x && r[id].body.y == GetSpawnPosition(id, groundY).y
            && (r[id].body.height == PLAYER_HEIGHT ==> r[id].body.Feet() == groundY)
            && r[id].body.vx == c.players[id].body.vx && r[id].body.vy == c.players[id].body.vy
            && (forall other :: other in c.players && other != id ==> r[other] == c.players[other])
  {
  }

  /** A `player-moved` message: the sender's id and the fields it carries. */
  datatype Patch = Patch(playerId: int, x: Option<real>, y: Option<real>, vx: Option<real>, vy: Option<real>,
                         onGround: Option<bool>, facingRight: Option<bool>, animFrame: Option<int>, dead: Option<bool>)

  /** The record's body with the supplied position, speed and ground flag. */
  function PatchedBody(b: Body, d: Patch): Body
  {
    b.(x := if d.x.Some? then d.x.value else b.x,
       y := if d.y.Some? then d.y.value else b.y,
       vx := if d.vx.Some? then d.vx.value else b.vx,
       vy := if d.vy.Some? then d.vy.value else b.vy,
       onGround := if d.onGround.Some? then d.onGround.value else b.onGround)
  }

  /** The record with every supplied field overwritten. */
  function Patched(p: Player, d: Patch): Player
  {
    p.(body := PatchedBody(p.body, d),
       facingRight := if d.facingRight.Some? then d.facingRight.value else p.facingRight,
       animFrame := if d.animFrame.Some? then d.animFrame.value else p.animFrame,
       dead := if d.dead.Some? then d.dead.value else p.dead)
  }

  /** `Object.assign` onto the record of a known player; a message about an unknown id is ignored. */
  function ApplyPatch(players: map<int, Player>, d: Patch): map<int, Player>
  {
    if d.playerId in players then players[d.playerId := Patched(players[d.playerId], d)] else players
  }

  /**
   * A patch for an unknown id changes nothing. For a known id it overwrites
   * exactly the fields the message carries, keeps every other field of that
   * record (id, size, riding), and touches no other player.
   */
  lemma PatchMeaning(players: map<int, Player>, d: Patch)
    ensures d.playerId !in players ==> ApplyPatch(players, d) == players
    ensures var r := ApplyPatch(players, d);
            && r.Keys == players.Keys
            && (forall id :: id in players && id != d.playerId ==> r[id] == players[id])
            && (d.playerId in players ==>
                  var p := players[d.playerId];
                  var q := r[d.playerId];
                  && (q.body.x == if d.x.Some? then d.x.value else p.body.x)
                  && (q.body.y == if d.y.Some? then d.y.value else p.body.y)
                  && (q.body.vx == if d.vx.Some? then d.vx.value else p.body.vx)
                  && (q.body.vy == if d.vy.Some? then d.vy.value else p.body.vy)
                  && (q.body.onGround == if d.onGround.Some? then d.onGround.value else p.body.onGround)
                  && (q.facingRight == if d.facingRight.Some? then d.facingRight.value else p.facingRight)
                  && (q.animFrame == if d.animFrame.Some? then d.animFrame.value else p.animFrame)
                  && (q.dead == if d.dead.Some? then d.dead.value else p.dead)
                  && q.id == p.id && q.body.width == p.body.width && q.body.height == p.body.height
                  && q.standingOnPlayer == p.standingOnPlayer)
    ensures forall c: Client :: c.players == players && WellSized(c) ==> WellSized(c.(players := ApplyPatch(players, d)))
  {
  }

  // ---------------------------------------------------------------------
  // Where the key and the door are.

  /**
   * The layout as written: the ground line 40 above the canvas bottom, and
   * the key and door at the ground line plus their vertical offsets, both 0.
   */
  function TableLayout(canvasWidth: real, canvasHeight: real): (r: Layout)
    ensures r.groundY == canvasHeight - GROUND_OFFSET
    ensures r.key.y == r.groundY && r.door.y == r.groundY
  {
    var groundY := canvasHeight - GROUND_OFFSET;
    Layout(groundY, Rect(560.0, groundY + 0.0, 24.0, 24.0), Rect(1080.0, groundY + 0.0, 48.0, 60.0), canvasWidth, canvasHeight)
  }

  /**
   * With the layout as written the key and the door hang entirely below the
   * ground line, and the tick clamps every player above it, so no tick ever
   * collects the key or reaches the door.
   */
  lemma TableKeyAndDoorUnreachable(canvasWidth: real, canvasHeight: real, c: Client, keys: set<string>, ready: bool)
    ensures var (r, events) := LocalStep(TableLayout(canvasWidth, canvasHeight), c, keys, ready);
            KeyCollected !in events && AtDoor !in events && r.keyCollected == c.keyCollected
  {
    var lay := TableLayout(canvasWidth, canvasHeight);
    if Runs(c, ready) && c.myPlayerId.value in c.players && !c.players[c.myPlayerId.value].dead {
      MoveOwnMeaning(c.players[c.myPlayerId.value], keys, c.animTimer + 1, lay.groundY);
    }
  }

  /** The layout with the key and the door standing on the ground line. */
  function GroundedLayout(canvasWidth: real, canvasHeight: real): (r: Layout)
    ensures r.key.y + r.key.height == r.groundY && r.door.y + r.door.height == r.groundY
  {
    var groundY := canvasHeight - GROUND_OFFSET;
    Layout(groundY, Rect(560.0, groundY - 24.0, 24.0, 24.0), Rect(1080.0, groundY - 60.0, 48.0, 60.0), canvasWidth, canvasHeight)
  }

  /**
   * With the key and the door on the ground line, a player walking on the
   * ground reaches both: standing still over the key collects it (and sends
   * the key event), and standing still in the doorway with the key sends the
   * door event.
   */
  lemma GroundedKeyAndDoorReachable(canvasWidth: real, canvasHeight: real, c: Client)
    requires Runs(c, true) && WellSized(c)
    requires c.myPlayerId.value in c.players && !c.players[c.myPlayerId.value].dead
    requires var p := c.players[c.myPlayerId.value];
             p.body.Feet() == canvasHeight - GROUND_OFFSET && p.body.vy == 0.0
    ensures var p := c.players[c.myPlayerId.value];
            var (r, events) := LocalStep(GroundedLayout(canvasWidth, canvasHeight), c, {}, true);
            && (!c.keyCollected && 515.0 < p.body.x < 584.0 ==> KeyCollected in events && r.keyCollected)
            && (c.keyCollected && 1035.0 < p.body.x < 1128.0 ==> AtDoor in events)
  {
    var lay := GroundedLayout(canvasWidth, canvasHeight);
    MoveOwnMeaning(c.players[c.myPlayerId.value], {}, c.animTimer + 1, lay.groundY);
  }
}
