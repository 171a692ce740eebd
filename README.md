# A verified model of the platformer's per-tick game core

This project models, in Dafny, the deterministic core of a cooperative
browser platformer. Two to four players run, jump, stand on each other's
heads, push each other and push boxes. Together they must collect one key
and all reach the door. The model covers:

- **the shared utilities** (`src/app/utils/`):
  - rectangle collision, landing, spawn slots, clamping and linear
    interpolation (`physics.ts`);
  - the smoothed side-scrolling camera for one or many players (`camera.ts`);
  - the keyboard handlers and the input queries (`inputHandler.ts`);
  - the saved progress and the world gate (`Progresstracker.ts`);
  - the choice of a player's sprite (`imageLoader.ts`).
- **the two-player levels** `World1` and `World2`, modelled as one level
  (`ClassicSpec`, `ClassicEngine`). Both use the same constants and the same
  order of phases. World1 has moving and falling platforms but no danger
  buttons. World2 has danger buttons but no moving or falling platforms.
  A level configuration with empty lists gives either one.
- **the four-player box level** `World3` (`BoxSpec`, `BoxEngine`): pushable
  boxes with friction, respawn and box-on-box contact; riding boxes; soft
  pushes between players.
- **the networked level's client** `MultiPlayerWorld1` (`NetSpec`,
  `NetEngine`):
  - the local tick, which moves only the own player and reports socket
    events;
  - the `room-state` and `player-moved` handlers;
  - the respawn timeout.

Each level exists twice:

- **A value-level definition.** A datatype for the whole level and a pure
  `Tick` function. The lemmas about the game's rules are proved on these.
- **A class.** It mirrors the component's refs: arrays of players, platforms
  and boxes, updated in place phase by phase, with the status as fields.
  Every method proves `Snapshot() == Spec(old(Snapshot()))`, so the lemmas
  carry over to the loop the browser runs.

**Where the model makes the source's semantics explicit:**

- **React state inside the loop.** The loop is a callback. It reads
  `gameState` and `playersAtDoor` as they were at the last render, and its
  setters take effect only after the tick. The model therefore passes the
  tick-start state as `seen`.
  - `handleDeath` checks `seen`, so every death in a tick replaces the
    pending reset timer.
  - The win check looks at the door set from the start of the tick. A level
    is won one tick after the last player reaches the door.
  - A `Won` set in the same tick as a death wins, because it is the later
    setter.
- **Timers.** `setTimeout` and `clearTimeout` become a pending timer id
  (`deathTimer`) and a counter that issues ids (`nextTimerId`).
  `TimerFires(id)` resets the level only when `id` is still the pending
  timer.
- **Numbers.** JavaScript numbers are `real`, and the constants are exact.
  Each level keeps its own values:
  - World1 and World2: gravity 0.6, jump -14, speed 5, stack margin 10,
    push force 0.2, fall margin 50;
  - World3: gravity 0.5, jump -13, speed 4.5, stack margin 8, push force
    0.08, box push speed 2, box friction 0.85, stop speed 0.1;
  - the networked level: the shared table's gravity 0.6, jump -10, speed 4.

## Model

| member | source | states |
|---|---|---|
| Physics.CheckCollisionSymmetric | src/app/utils/physics.ts:84-94 | the strict AABB overlap test is symmetric |
| Physics.SharedEdgeDoesNotCollide | src/app/utils/physics.ts:84-94 | two rectangles that only share an edge do not collide (the comparisons are strict) |
| Physics.CornersAreInside | src/app/utils/physics.ts:159-169 | a point is inside iff it lies in the closed interval of both axes, edges included; so both corners of a rectangle are inside it |
| Physics.LandOn | src/app/utils/physics.ts:115-122 | landing puts the feet exactly on the given top, sets vy to 0 and grounds the body; x, vx and the size are kept |
| Physics.LandingIsOnPlatform | src/app/utils/physics.ts:99-110 | a body overlapping a platform horizontally and landed on it is "on the platform", and no longer collides with it |
| Physics.OnPlatformBand | src/app/utils/physics.ts:99-110 | "on a platform" means not rising, with the feet within [top-5, top+10], and overlapping the platform horizontally on both sides, strictly |
| Physics.BodyRecord.constructor | src/app/utils/physics.ts:115-122 | the record holds exactly the given position, height, speed and ground flag |
| Physics.ApplyPlatformCollision | src/app/utils/physics.ts:115-122 | in place: the player's feet end on platformY with vy 0 and grounded; x and height are unchanged |
| Physics.DangerIffSomeButton | src/app/utils/physics.ts:127-132 | the danger test holds iff some button in the list collides with the player |
| Physics.GetSpawnPosition | src/app/utils/physics.ts:137-140 | the spawn point is at x = 50 + 80 * id, with the player's feet on the ground line |
| Physics.SpawnPositionsDistinct | src/app/utils/physics.ts:137-140 | spawn slots are 80 apart per id step, so distinct ids spawn at distinct x |
| Physics.Clamp | src/app/utils/physics.ts:145-147 | with min <= max the result lies in [min, max] and equals the value when the value is inside; with min > max it is min |
| Physics.LerpEndpoints | src/app/utils/physics.ts:152-154 | lerp gives start at 0 and end at 1, and stays between them for amounts in [0, 1] |
| Camera.EffectiveWidth | src/app/utils/camera.ts:22 | a missing or zero width falls back to 45; any other width is used as given |
| Camera.UpdateCamera | src/app/utils/camera.ts:16-30 | the new camera x is never negative and the camera y never changes |
| Camera.UpdateCameraIsClampedLerp | src/app/utils/camera.ts:16-30 | the new x is the lerp toward the centring target, clamped at 0; with smoothing in [0, 1] it lies between the old x and the target unless clamped |
| Camera.UpdateCameraMultiplayer | src/app/utils/camera.ts:36-57 | no players leaves the camera as it was; otherwise x >= 0; y never changes |
| Camera.MultiplayerSingleIsUpdateCamera | src/app/utils/camera.ts:36-57 | with one player the group camera equals the single-player camera |
| Camera.MeanWithinGroup | src/app/utils/camera.ts:48 | the mean x of a non-empty group lies between any bounds that hold every player's x |
| Camera.MultiplayerIsClampedLerp | src/app/utils/camera.ts:45-56 | for a non-empty group the new x is the clamped lerp toward the target that centres the group's mean x |
| Input.ToLowerChar | src/app/utils/inputHandler.ts:32 | each upper-case ASCII letter maps to its own lower-case letter (code + 32) and every other character is unchanged |
| Input.ToLower | src/app/utils/inputHandler.ts:32 | lower-casing keeps the length and maps every character |
| Input.ToLowerIdempotent | src/app/utils/inputHandler.ts:32 | lower-casing twice is lower-casing once |
| Input.KeyboardHandlers.constructor | src/app/utils/inputHandler.ts:28-30 | the handlers start with the given set of pressed keys |
| Input.KeyboardHandlers.HandleKeyDown | src/app/utils/inputHandler.ts:31-38 | the lower-cased key joins the pressed set; the default action is suppressed iff it is one of the nine game keys |
| Input.KeyboardHandlers.HandleKeyUp | src/app/utils/inputHandler.ts:40-42 | the lower-cased key leaves the pressed set and nothing else changes |
| Input.PressAndRelease | src/app/utils/inputHandler.ts:31-42 | pressing and then releasing the same key (in any case) removes it and leaves every other key as it was |
| Input.QueriesAgreeWithInput | src/app/utils/inputHandler.ts:50-80 | the input record and the three queries agree on left, right and jump |
| Input.KeyDownSteers | src/app/utils/inputHandler.ts:50-80 | after pressing A or ArrowLeft the player steers left, after D or ArrowRight right, after W, ArrowUp or space it jumps |
| Input.LowerKeyNames | src/app/utils/inputHandler.ts:13-23 | the browser key names lower-case to the names the queries test |
| Rules.ApplyControls | src/app/components/Maps/World1.tsx:434-464 | input sets speeds and facing only: it never moves the player or changes its identity, life or size |
| Rules.Animate | src/app/components/Maps/World1.tsx:470-476 | a still player shows frame 0; a walking player toggles between frames 1 and 2 on every eighth tick and keeps its frame otherwise; the body is untouched |
| Rules.BeginStep | src/app/components/Maps/World1.tsx:434-479 | the start of a step keeps identity, life and size and clears the ground and riding flags |
| Rules.BeginStepMotion | src/app/components/Maps/World1.tsx:434-468 | left beats right; no key stops the player; jump only from the ground; gravity is added and both axes integrate with the new speeds; an airborne player accelerates downward |
| Rules.StackingMeaning | src/app/components/Maps/World1.tsx:318-331 | stacking needs both alive, not rising, feet within [head-5, head+15] and more than `margin` (10 here, 8 in World3) of horizontal overlap on each side; it leaves the rider on the other's head, grounded, recording whom it rides, no longer colliding |
| Rules.DeadNeverStacks | src/app/components/Maps/World1.tsx:318-331 | a dead rider or a dead partner never stacks |
| Rules.StackPassKeeps | src/app/components/Maps/World1.tsx:481-494 | the stacking pass over all other players keeps identity, size and horizontal speed |
| Rules.ResolvePlatformMeaning | src/app/components/Maps/World1.tsx:535-570 | a landing puts the feet on the platform top; a head bump puts the head under it; a side hit makes the body flush and stops it; afterwards there is no collision; otherwise nothing changes |
| Rules.LastLandingWins | src/app/components/Maps/World1.tsx:535-570 | platforms are resolved in order with no early exit, so a landing on the last platform decides the final position |
| Rules.ResolvePlatformsSnoc | src/app/components/Maps/World1.tsx:535-570 | resolving against a list plus one platform is resolving the list and then that platform |
| Rules.ClampLeft | src/app/components/Maps/World1.tsx:589-591 | a negative x becomes exactly 0; a player already at or right of 0 is unchanged; no other field ever changes |
| Session.HandleDeathReplacesTimer | src/app/components/Maps/World1.tsx:378-389 | with a dead tick-start state nothing happens; otherwise the level dies and the pending reset becomes a fresh timer id, cancelling the old one |
| Session.HazardPassMeaning | src/app/components/Maps/World2.tsx:533-538 | the danger pass kills the level iff some button overlaps the player (when the tick started alive) and keeps the timers consistent |
| Session.DangerKills | src/app/components/Maps/World2.tsx:533-538 | touching any danger button while alive makes the level dead with a pending reset |
| Session.CollectKey | src/app/components/Maps/World1.tsx:572-575 | the key is collected iff it was already or the player overlaps it; nothing else changes |
| ClassicSpec.StepMovingAll | src/app/components/Maps/World1.tsx:415-420 | every moving platform is stepped, in place and in order |
| ClassicSpec.MovingPlatformOnTrack | src/app/components/Maps/World1.tsx:415-420 | a platform moves by speed times direction, reverses exactly at or past either end, stays within one step of its track, and stays on track |
| ClassicSpec.StepFallingAll | src/app/components/Maps/World1.tsx:422-429 | every falling platform is stepped, in order |
| ClassicSpec.FallSchedule | src/app/components/Maps/World1.tsx:422-429 | a triggered platform counts ticks and, after the 30-tick delay, drops 8 per tick; an untriggered one never moves |
| ClassicSpec.VisibleFalling | src/app/components/Maps/World1.tsx:533 | a falling platform is solid iff it is still above the canvas bottom: every solid is such a platform, and every such platform is a solid |
| ClassicSpec.FindFalling | src/app/components/Maps/World1.tsx:551-553 | the lookup returns an index whose platform has that x and original y, or none when no platform does |
| ClassicSpec.PlatformPassMeaning | src/app/components/Maps/World1.tsx:535-570 | the platform pass moves the body exactly as resolving against every solid in order, and never stops a platform from falling |
| ClassicSpec.LandingStartsFall | src/app/components/Maps/World1.tsx:546-556 | landing on a falling platform triggers it |
| ClassicSpec.FindDistinct | src/app/components/Maps/World1.tsx:551-553 | with distinct (x, original y) pairs the lookup finds the platform itself |
| ClassicSpec.PushPairMeaning | src/app/components/Maps/World1.tsx:496-531 | a side contact moves the pair apart by equal and opposite amounts, half the overlap plus 0.5 each, after which they no longer collide; only the pushed player's vx may change, and it stays within the walking speed |
| ClassicSpec.PushPassSkips | src/app/components/Maps/World1.tsx:496-531 | the push pass never touches the pusher's own slot, a dead player or one it stands on, and changes only the pusher's x |
| ClassicSpec.ResetGameMeaning | src/app/components/Maps/World1.tsx:333-376 | a reset puts both players at x 50 and 100, 100 above the ground, alive and at rest; puts the key back; restores every falling platform; clears the door set; homes the camera; plays again. A timeout that is no longer pending changes nothing |
| ClassicSpec.ContactsMeaning | src/app/components/Maps/World1.tsx:572-587 | the key, door and fall checks: the key is collected iff overlapped; the door set gains this player iff it holds the key at the door; the level dies iff it was dead, a button is touched or the player fell out |
| ClassicSpec.PlayerStepMeaning | src/app/components/Maps/World1.tsx:431-592 | a player's step keeps the level's progress and leaves the player at x >= 0; a dead player is skipped; a living tick can only turn the level dead |
| ClassicSpec.PlayersPassMeaning | src/app/components/Maps/World1.tsx:431-592 | the pass over every player keeps the progress, and can only turn the level dead |
| ClassicSpec.Tracks | src/app/components/Maps/World1.tsx:598-601 | the camera sees every player, in order, at its x |
| ClassicSpec.TickMeaning | src/app/components/Maps/World1.tsx:405-602 | outside play a tick only counts. In play the key stays collected, the door set grows, falling platforms keep falling and moving ones stay on track; the level is won iff both players were at the door at the start of the tick, and otherwise it is playing or dead; the camera keeps x >= 0 |
| ClassicEngine.World.constructor | src/app/components/Maps/World1.tsx:103-134 | two players at x 50 and 100, y 400; the given platforms; playing, with nothing collected and no pending reset |
| ClassicEngine.World.HandleDeath | src/app/components/Maps/World1.tsx:378-389 | the status becomes exactly the death handling of the old status |
| ClassicEngine.World.ResetGame | src/app/components/Maps/World1.tsx:333-376 | the level, arrays included, becomes exactly the reset level |
| ClassicEngine.World.TimerFires | src/app/components/Maps/World1.tsx:386-388 | the level becomes the reset level iff the timeout is the pending one |
| ClassicEngine.World.StepPlatforms | src/app/components/Maps/World1.tsx:415-429 | both platform arrays are stepped in place, exactly as the value-level step |
| ClassicEngine.World.StackPlayer | src/app/components/Maps/World1.tsx:481-494 | the loop computes the stacking pass |
| ClassicEngine.World.PushPlayers | src/app/components/Maps/World1.tsx:496-531 | the loop pushes the other players in the array in place, as the push pass |
| ClassicEngine.World.CollidePlatforms | src/app/components/Maps/World1.tsx:535-570 | the loop resolves the body and triggers falling platforms in place, as the platform pass |
| ClassicEngine.World.CheckHazards | src/app/components/Maps/World2.tsx:533-538 | the status becomes exactly the danger pass |
| ClassicEngine.World.Touch | src/app/components/Maps/World1.tsx:572-587 | the status becomes exactly the contact checks |
| ClassicEngine.World.StepPlayer | src/app/components/Maps/World1.tsx:431-592 | the level becomes exactly one player's step |
| ClassicEngine.World.GameLoop | src/app/components/Maps/World1.tsx:405-602 | the level becomes exactly one tick of it |
| BoxSpec.BindingsDisjoint | src/app/components/Maps/World3.tsx:149-154 | each of the four players has three keys, and no key is bound to two players |
| BoxSpec.FrictionMeaning | src/app/components/Maps/World3.tsx:432-439 | friction never reverses or speeds up a box; a moving box slows down; a box ends stopped or at least 0.1 fast |
| BoxSpec.BoxPairMeaning | src/app/components/Maps/World3.tsx:473-506 | a box on another lands on its top; two boxes side by side are pushed to a gap of exactly 1, keep their total x and speed, and share the average speed; otherwise nothing changes |
| BoxSpec.BoxPairPass | src/app/components/Maps/World3.tsx:473-506 | the box-against-box pass keeps every box's id and size |
| BoxSpec.FindAnchor | src/app/components/Maps/World3.tsx:508-517 | the anchor lookup returns an index with the box's id, or none when no anchor has it |
| BoxSpec.StepBoxMeaning | src/app/components/Maps/World3.tsx:431-521 | a box is moved, resolved against platforms and paired with the others; it respawns at rest at its anchor when it falls 200 below the canvas; it ends at x >= 0 |
| BoxSpec.BoxesPass | src/app/components/Maps/World3.tsx:431-521 | updating every box keeps each box's id and size |
| BoxSpec.RideBoxMeaning | src/app/components/Maps/World3.tsx:559-569 | a player on a box ends with its feet on the top, grounded, carried sideways by the box's speed; otherwise it is unchanged |
| BoxSpec.RideBoxes | src/app/components/Maps/World3.tsx:559-569 | riding keeps identity, life, size, horizontal speed and what the player stands on |
| BoxSpec.PushBoxPairMeaning | src/app/components/Maps/World3.tsx:588-621 | a side contact leaves the player flush with the box, and the box moves at +2 or -2 exactly when walked into from that side; a falling player lands on it; a player never displaces a box |
| BoxSpec.PushBoxPass | src/app/components/Maps/World3.tsx:588-621 | the push pass keeps the player's identity and speed, and every box's id and x |
| BoxSpec.SoftPushMeaning | src/app/components/Maps/World3.tsx:624-658 | a soft push moves the pair apart equally and shrinks their overlap to 70%, so they still touch; the pushed player gets the push speed only when the pusher walks toward it with its own key held |
| BoxSpec.SoftPushPassKeeps | src/app/components/Maps/World3.tsx:624-658 | the soft-push pass keeps identities and lives, never touches the pusher's slot or a dead player, and leaves the pusher's speed and height |
| BoxSpec.DoorCheck | src/app/components/Maps/World3.tsx:704-717 | the door set holds this player iff it carries the key into the door; other players' membership is unchanged |
| BoxSpec.ContactsMeaning | src/app/components/Maps/World3.tsx:692-722 | key, door, danger and fall: the key is collected iff overlapped; the door membership follows the player; the level dies iff a button is touched or the player fell out |
| BoxSpec.PlayerStepMeaning | src/app/components/Maps/World3.tsx:523-727 | a player's step keeps the progress and leaves the player at x >= 0; it changes only its own door membership; a living tick can only turn the level dead |
| BoxSpec.PlayersPassMeaning | src/app/components/Maps/World3.tsx:523-727 | the pass over every player keeps the progress and can only turn the level dead |
| BoxSpec.LivingTracks | src/app/components/Maps/World3.tsx:734-740 | the camera sees at most one entry per player, and someone whenever someone lives |
| BoxSpec.LivingTracksMeaning | src/app/components/Maps/World3.tsx:734-740 | the camera follows exactly the living players: each living player's position is followed, every followed position is a living player's, and with all dead nothing is followed |
| BoxSpec.TickMeaning | src/app/components/Maps/World3.tsx:420-741 | outside play a tick only counts; in play ids and lives are kept, the key stays collected, the level is won iff all four were at the door at the start of the tick, and otherwise it is playing or dead |
| BoxSpec.AnchorsOf | src/app/components/Maps/World3.tsx:172-181 | the anchors record every box's id and mount position, in order |
| BoxSpec.ResetGameMeaning | src/app/components/Maps/World3.tsx:363-391 | a reset puts the four players at x 50, 100, 150 and 200, alive and at rest; puts every box back at its mount position at rest and not grounded; puts the key back; homes the camera; plays again |
| BoxEngine.BoxWorld.constructor | src/app/components/Maps/World3.tsx:149-181 | four players at x 50 to 200, y 400; the given boxes; playing, with nothing collected; the reset anchors are the boxes' ids and positions as mounted |
| BoxEngine.BoxWorld.HandleDeath | src/app/components/Maps/World3.tsx:393-404 | the status becomes exactly the death handling of the old status |
| BoxEngine.BoxWorld.ResetGame | src/app/components/Maps/World3.tsx:363-391 | the level, arrays included, becomes exactly the reset level |
| BoxEngine.BoxWorld.TimerFires | src/app/components/Maps/World3.tsx:401-403 | the level becomes the reset level iff the timeout is the pending one |
| BoxEngine.BoxWorld.CollidePlatforms | src/app/components/Maps/World3.tsx:661-689 | the loop resolves a body against every platform in order |
| BoxEngine.BoxWorld.PairBoxes | src/app/components/Maps/World3.tsx:473-506 | the box array is updated in place exactly as the box-against-box pass |
| BoxEngine.BoxWorld.StepBox | src/app/components/Maps/World3.tsx:431-521 | the box array is updated in place exactly as one box's update |
| BoxEngine.BoxWorld.StepBoxes | src/app/components/Maps/World3.tsx:431-521 | the box array is updated in place exactly as every box's update |
| BoxEngine.BoxWorld.RideBoxes | src/app/components/Maps/World3.tsx:559-569 | the loop computes the ride over every box |
| BoxEngine.BoxWorld.StackPlayer | src/app/components/Maps/World3.tsx:572-585 | the loop computes the stacking pass |
| BoxEngine.BoxWorld.PushBoxes | src/app/components/Maps/World3.tsx:588-621 | the box array is updated in place exactly as the box-push pass |
| BoxEngine.BoxWorld.SoftPushPlayers | src/app/components/Maps/World3.tsx:624-658 | the player array is updated in place exactly as the soft-push pass |
| BoxEngine.BoxWorld.CheckHazards | src/app/components/Maps/World3.tsx:692-696 | the status becomes exactly the danger pass |
| BoxEngine.BoxWorld.Touch | src/app/components/Maps/World3.tsx:692-722 | the status becomes exactly the contact checks |
| BoxEngine.BoxWorld.StepPlayer | src/app/components/Maps/World3.tsx:523-727 | the level becomes exactly one player's step |
| BoxEngine.BoxWorld.GameLoop | src/app/components/Maps/World3.tsx:420-741 | the level becomes exactly one tick of it |
| NetSpec.MoveOwnMeaning | src/app/components/Maps/MultiPlayerWorld1.tsx:263-297 | left beats right; jump only from the ground; x moves by the new vx; the feet never end below the ground line, and a player reaching it is landed and grounded |
| NetSpec.Tracks | src/app/components/Maps/MultiPlayerWorld1.tsx:330-335 | the camera sees at most one entry per id of the insertion order, and exactly one per id when every ordered id is in the map |
| NetSpec.TracksMeaning | src/app/components/Maps/MultiPlayerWorld1.tsx:330-335 | when every ordered id is in the map, the k-th followed entry is the position and width of the k-th inserted player |
| NetSpec.Outbox | src/app/components/Maps/MultiPlayerWorld1.tsx:300-327 | the tick sends the key event, the door event and the death event exactly when they happened, and the state update only on send ticks, carrying the player's state |
| NetSpec.LocalStepGate | src/app/components/Maps/MultiPlayerWorld1.tsx:252-260 | outside play, without an id or before the canvas is ready, nothing changes. A missing or dead own player only advances the counter. Other players, the order and the id are never changed, the state only turns dead, and the key stays collected |
| NetSpec.LocalStepEvents | src/app/components/Maps/MultiPlayerWorld1.tsx:257-327 | the key event is sent iff the key is newly touched; the door event iff the player holds the key at the door; the state is sent on every third tick; the death event iff the player fell out; the feet stay above the ground |
| NetSpec.NoFallOut | src/app/components/Maps/MultiPlayerWorld1.tsx:293-322 | the ground clamp catches every player before the fall-out line, so the tick never reports a death |
| NetSpec.StepKeyEvents | src/app/components/Maps/MultiPlayerWorld1.tsx:300-304 | one tick sends at most one key event, none once the key is collected, and the flag follows |
| NetSpec.KeyEventAtMostOnce | src/app/components/Maps/MultiPlayerWorld1.tsx:300-304 | over any run of ticks the key event is sent at most once |
| NetSpec.Admit | src/app/components/Maps/MultiPlayerWorld1.tsx:168-174 | a listed player is stored with the shared 45 by 55 size, riding nobody; every other field (id, position, speeds, ground flag, facing, frame, life) is kept as the spread copies it |
| NetSpec.SeatedKeys | src/app/components/Maps/MultiPlayerWorld1.tsx:166-175 | after the room state the map's keys are exactly the listed ids, and each record has the shared size |
| NetSpec.SeatedOrder | src/app/components/Maps/MultiPlayerWorld1.tsx:166-175 | the insertion order lists every key exactly once |
| NetSpec.SeatedDistinct | src/app/components/Maps/MultiPlayerWorld1.tsx:166-175 | with distinct ids the insertion order is the list's order and each record is that player's |
| NetSpec.RoomStateMeaning | src/app/components/Maps/MultiPlayerWorld1.tsx:160-178 | the room state starts play with the id set, stores exactly the listed players at the shared size, tracks each once, and leaves the key, counter and camera |
| NetSpec.RespawnMeaning | src/app/components/Maps/MultiPlayerWorld1.tsx:316-321 | the respawned player is alive at its spawn slot with its feet on the ground; speeds and every other player are untouched |
| NetSpec.PatchMeaning | src/app/components/Maps/MultiPlayerWorld1.tsx:189-194 | a move message replaces exactly the fields it carries on a known player; an unknown id changes nothing |
| NetSpec.TableKeyAndDoorUnreachable | src/app/components/Maps/MultiPlayerWorld1.tsx:101-114 | with the layout as written no tick ever collects the key or reaches the door |
| NetSpec.GroundedLayout | src/app/utils/physics.ts:46-79 | the corrected layout puts the key and the door on the ground line |
| NetSpec.GroundedKeyAndDoorReachable | src/app/components/Maps/MultiPlayerWorld1.tsx:300-309 | on the corrected layout a player standing over the key collects it, and one standing in the doorway with the key sends the door event |
| NetEngine.NetClient.constructor | src/app/components/Maps/MultiPlayerWorld1.tsx:85-116 | the client starts in the lobby, with no players, no id and the camera home; the key and the door are placed as written, their top edge on the ground line |
| NetEngine.NetClient.Grounded | src/app/components/Maps/MultiPlayerWorld1.tsx:85-116 | the same lobby client on the corrected layout, with the key's and the door's bottom edge on the ground line |
| NetEngine.NetClient.RoomState | src/app/components/Maps/MultiPlayerWorld1.tsx:160-178 | the loop over the listed players sets the map, the order, the id and the state exactly as the room state |
| NetEngine.NetClient.PlayerMoved | src/app/components/Maps/MultiPlayerWorld1.tsx:189-194 | the players map becomes exactly the patched map, and nothing else changes |
| NetEngine.NetClient.RespawnTimer | src/app/components/Maps/MultiPlayerWorld1.tsx:316-321 | the client becomes exactly the respawned client |
| NetEngine.NetClient.MoveOwnPlayer | src/app/components/Maps/MultiPlayerWorld1.tsx:263-297 | the statements compute the own player's motion exactly |
| NetEngine.NetClient.GameLoop | src/app/components/Maps/MultiPlayerWorld1.tsx:250-336 | the client and the events sent become exactly one local tick |
| Progress.GetProgress | src/app/utils/Progresstracker.ts:5-10 | without a window, or with nothing stored, the progress is 0; otherwise it is the stored number |
| Progress.AccessGate | src/app/utils/Progresstracker.ts:16-19 | a world is open iff its number is at most progress + 1; world 1 is open whenever progress >= 0; openness is downward closed |
| Progress.GetNextWorld | src/app/utils/Progresstracker.ts:37-41 | there is no next world iff progress is at least 3; otherwise it is progress + 1 and at most 3 |
| Progress.NextWorldIsAccessible | src/app/utils/Progresstracker.ts:16-41 | the next world is open and the one after it is not |
| Progress.ProgressStore.constructor | src/app/utils/Progresstracker.ts:7 | the store holds the given saved entry |
| Progress.Ground.constructor | src/app/utils/Progresstracker.ts:24 | the ground holds the given y |
| Progress.ResetProgress | src/app/utils/Progresstracker.ts:24-31 | with a window the saved entry is removed, so progress reads 0, and a given ground moves to y = -300; without one nothing changes |
| Sprites.GetImageSrc | src/app/utils/imageLoader.ts:18-20 | a URL is used as is and an imported asset yields its src |
| Sprites.GetPlayerSprite | src/app/utils/imageLoader.ts:247-275 | ids other than 1 to 4 have no sprite |
| Sprites.SpriteFromOwnSet | src/app/utils/imageLoader.ts:247-275 | a player's sprite always comes from its own set: idle on frame 0 whatever the facing, otherwise right or left by facing; a missing set gives nothing |

## Left out

- Rendering: backgrounds, clouds, sprites on the canvas, the HUD and the overlays. Window resizing and image loading are left out too; only the choice of sprite is modelled. `ready` in `NetSpec.LocalStep` stands for "canvas, context and images present". World1, World2 and World3 also return before advancing the tick counter when the canvas or its context is missing (World1.tsx:393-395, World2.tsx:377-379, World3.tsx:408-410). Their interval starts only once the images are loaded (for example World3.tsx:1048-1050), so that exit is not modelled and `ClassicSpec.Tick` and `BoxSpec.Tick` always advance the counter.
- `setInterval(gameLoop, 1000 / 60)` scheduling: each call of a `GameLoop` is one tick of the interval.
- Floating point: numbers are exact reals. Rounding in IEEE doubles (for example 0.6 accumulating in `vy`) is not modelled.
- `Progress.GetProgress`: `parseInt` of the stored string is modelled as an already-parsed `Option<int>`. A malformed entry, which `parseInt` turns into NaN, is not modelled.
- `Input.ToLower`: lower-cases ASCII letters only; the full Unicode case mapping of `toLowerCase` is not modelled.
- Timers are ids: `setTimeout` is a pending id and `clearTimeout` replaces it. Wall-clock delays (1500 ms in World1, World2 and the networked level; 2000 ms in World3) and the cleanup on unmount are not modelled.
- `Camera.UpdateCameraMultiplayer`: with no players the camera is left unchanged, as the utility does. World1 and World2 compute the mean inline, and with zero players would divide by zero (NaN). The two-player levels always have two players, so this is unreachable.
- Socket plumbing of the networked level: connecting, joining, `player-joined`, `player-left`, `key-collected`, `game-reset` and `game-won` from the server, and emitting with a missing socket. Only the `room-state` and `player-moved` handlers and the events the tick sends are modelled. After a fall the client stays dead until a `game-reset` message arrives.
- `NetEngine.NetClient.RespawnTimer`: the source's timeout captures the player object, which `room-state` or `player-moved` may have replaced in the map by then. The model looks the player up again by id and does not capture the detached-object aliasing.
- `NetSpec.PatchMeaning`: only the fields the server relays (position, speeds, ground flag, facing, frame, death) are patchable. Other fields of a spread `data` object are not.
- `MultiPlayerWorld2.tsx` and the rendering helpers are not part of this model.

## Findings

| source | as written | input that shows it | evidently intended | confidence | as-written member | corrected member |
|---|---|---|---|---|---|---|
| src/app/components/Maps/MultiPlayerWorld1.tsx:101-114 | the key and the door are placed at `groundY + yOffset` with both offsets 0, so their top edge is the ground line and they lie entirely below it, while the tick clamps every player's feet to the ground line (lines 293-297) | any tick, any keys: the player's bottom edge is at most groundY and the key's top edge is groundY, so the strict overlap test never holds | key and door standing on the ground line (y = groundY - height), reachable by walking | medium; the intended placement is inferred from the single-player levels; not executed | NetSpec.TableKeyAndDoorUnreachable | NetSpec.GroundedKeyAndDoorReachable |

The client class keeps the layout as written in its unnamed constructor
(`NetEngine.NetClient.constructor`). The named constructor
`NetEngine.NetClient.Grounded` builds the same client on the corrected
layout. `GameLoop` works on either layout.
